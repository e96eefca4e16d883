/** The field rules of the personal-information and symptoms pages: which
    values let the wizard advance, and which error messages are displayed
    once the user has tried to advance. */
module Validation {
  import opened Wrappers

  /** Limits enforced by the input widgets themselves. */
  const MaxNameLength := 40
  const MaxPhoneLength := 10
  const MaxPlaceLength := 25
  const MaxAge := 120

  /** An Indian mobile number: ten digits, the first one of these. */
  const MobileLength := 10
  const MobilePrefixes := "6789"

  const NameRequired := "Name is required."
  const PhoneRequired := "Phone number is required."
  const PhoneMalformed := "Please enter a valid 10-digit Indian phone number."
  const PlaceRequired := "Place is required."
  const AgeRequired := "Age is required."

  /** The options offered by the two multi-select widgets, in display order. */
  const GeneralSymptoms := ["Fever", "Sore throat", "Headache", "Muscle aches", "Back pain", "Low energy"]
  const SkinSymptoms := ["Skin rash or lesions", "Swollen lymph nodes"]

  const GeneralMissing := "Please select at least one general symptom."
  const SkinMissing := "Please select at least one skin symptom."
  const ImageMissing := "Please upload an image of the symptom."

  predicate IsAsciiDigit(c: char) {
    '0' <= c <= '9'
  }

  /** Python's `str.isdigit`, restricted to ASCII digits: false on "". */
  function IsDigitString(s: string): (b: bool)
    ensures b <==> |s| > 0 && forall i :: 0 <= i < |s| ==> IsAsciiDigit(s[i])
    decreases |s|
  {
    if |s| == 0 then false
    else IsAsciiDigit(s[0]) && (|s| == 1 || IsDigitString(s[1..]))
  }

  /** Exactly `n` ASCII digits and nothing else. */
  predicate Digits(s: string, n: nat)
    decreases n
  {
    if n == 0 then s == [] else |s| > 0 && IsAsciiDigit(s[0]) && Digits(s[1..], n - 1)
  }

  /** The regular expression ^[6-9][0-9]{9}$, read left to right. */
  predicate IndianMobile(p: string) {
    |p| > 0 && p[0] in MobilePrefixes && Digits(p[1..], MobileLength - 1)
  }

  lemma {:induction false} DigitsMeansAllDigits(s: string, n: nat)
    ensures Digits(s, n) <==> |s| == n && forall i :: 0 <= i < |s| ==> IsAsciiDigit(s[i])
    decreases n
  {
    if n > 0 && |s| > 0 {
      DigitsMeansAllDigits(s[1..], n - 1);
      assert forall i :: 1 <= i < |s| ==> s[1..][i - 1] == s[i];
    }
  }

  /** What is wrong with a field, if anything. */
  datatype Check = Fine | Missing | Malformed

  /** The phone rule of the personal-information page: an empty value is
      missing; otherwise it is malformed when it is not all digits, not ten
      characters long, or does not start with 6, 7, 8 or 9. */
  function PhoneCheck(phone: string): (c: Check)
    ensures c == Missing <==> phone == ""
    ensures c == Fine <==> IndianMobile(phone)
  {
    if phone == "" then Missing
    else
      DigitsDecideMobile(phone);
      if !IsDigitString(phone) || |phone| != MobileLength || phone[0] !in MobilePrefixes then Malformed
      else Fine
  }

  lemma DigitsDecideMobile(p: string)
    requires p != ""
    ensures IndianMobile(p) <==> IsDigitString(p) && |p| == MobileLength && p[0] in MobilePrefixes
  {
    DigitsMeansAllDigits(p[1..], MobileLength - 1);
    assert forall i :: 1 <= i < |p| ==> p[1..][i - 1] == p[i];
  }


  /** The error lines of the personal-information page. */
  const PersonalInfoLines := [NameRequired, PhoneRequired, PhoneMalformed, PlaceRequired, AgeRequired]

  /** The position on the page of the field an error line belongs to. */
  function FieldOrder(line: string): nat {
    if line == NameRequired then 0
    else if line == PhoneRequired || line == PhoneMalformed then 1
    else if line == PlaceRequired then 2
    else 3
  }

  /** Error lines listed top to bottom, at most one per field. */
  predicate InFieldOrder(lines: seq<string>) {
    forall i, j :: 0 <= i < j < |lines| ==> FieldOrder(lines[i]) < FieldOrder(lines[j])
  }

  /** The shape of the four pieces the page is built from: at most one
      line per field, each one of that field's own lines. */
  predicate PersonalPieceShapes(a: seq<string>, b: seq<string>, c: seq<string>, d: seq<string>) {
    && (a == [] || a == [NameRequired])
    && (b == [] || b == [PhoneRequired] || b == [PhoneMalformed])
    && (c == [] || c == [PlaceRequired])
    && (d == [] || d == [AgeRequired])
  }

  /** Pieces listed in field order give lines in field order. */
  lemma PersonalPiecesInOrder(a: seq<string>, b: seq<string>, c: seq<string>, d: seq<string>)
    requires PersonalPieceShapes(a, b, c, d)
    ensures InFieldOrder(a + b + c + d)
  {
    assert FieldOrder(NameRequired) == 0 && FieldOrder(PhoneRequired) == 1 && FieldOrder(PhoneMalformed) == 1;
    assert FieldOrder(PlaceRequired) == 2 && FieldOrder(AgeRequired) == 3;
    var lines := a + b + c + d;
    forall k | 0 <= k < |lines|
      ensures FieldOrder(lines[k]) ==
        if k < |a| then 0 else if k < |a| + |b| then 1 else if k < |a| + |b| + |c| then 2 else 3
    {
      if k < |a| { assert lines[k] == a[k]; }
      else if k < |a| + |b| { assert lines[k] == b[k - |a|]; }
      else if k < |a| + |b| + |c| { assert lines[k] == c[k - |a| - |b|]; }
      else { assert lines[k] == d[k - |a| - |b| - |c|]; }
    }
  }

  /** The joined pieces hold only lines of this page, and each line is
      present exactly when its piece holds it. */
  lemma PersonalPiecesMembers(a: seq<string>, b: seq<string>, c: seq<string>, d: seq<string>)
    requires PersonalPieceShapes(a, b, c, d)
    ensures forall m :: m in a + b + c + d ==> m in PersonalInfoLines
    ensures NameRequired in a + b + c + d <==> a != []
    ensures PhoneRequired in a + b + c + d <==> b == [PhoneRequired]
    ensures PhoneMalformed in a + b + c + d <==> b == [PhoneMalformed]
    ensures PlaceRequired in a + b + c + d <==> c != []
    ensures AgeRequired in a + b + c + d <==> d != []
  {
  }

  /** The error lines shown under the four personal fields, top to bottom,
      at most one per field; nothing is shown until Next has been pressed
      once. */
  function PersonalInfoMessages(showErrors: bool, name: string, phone: string, place: string, age: int): (msgs: seq<string>)
    ensures !showErrors ==> msgs == []
    ensures NameRequired in msgs <==> showErrors && name == ""
    ensures PhoneRequired in msgs <==> showErrors && phone == ""
    ensures PhoneMalformed in msgs <==> showErrors && phone != "" && !IndianMobile(phone)
    ensures PlaceRequired in msgs <==> showErrors && place == ""
    ensures AgeRequired in msgs <==> showErrors && age == 0
    ensures showErrors ==> (msgs == [] <==> name != "" && IndianMobile(phone) && place != "" && age != 0)
    ensures forall m :: m in msgs ==> m in PersonalInfoLines
    ensures InFieldOrder(msgs)
  {
    if !showErrors then []
    else
      var nameLine := if name == "" then [NameRequired] else [];
      var phoneLine := match PhoneCheck(phone)
        case Missing => [PhoneRequired]
        case Malformed => [PhoneMalformed]
        case Fine => [];
      var placeLine := if place == "" then [PlaceRequired] else [];
      var ageLine := if age == 0 then [AgeRequired] else [];
      PersonalPiecesInOrder(nameLine, phoneLine, placeLine, ageLine);
      PersonalPiecesMembers(nameLine, phoneLine, placeLine, ageLine);
      nameLine + phoneLine + placeLine + ageLine
  }

  /** The test that decides whether Next advances: the four values are
      truthy. It holds exactly when none of the four "required" lines
      would show; the phone format is not consulted. */
  function PersonalGate(name: string, phone: string, place: string, age: int): (b: bool)
    ensures b <==>
      var msgs := PersonalInfoMessages(true, name, phone, place, age);
      NameRequired !in msgs && PhoneRequired !in msgs && PlaceRequired !in msgs && AgeRequired !in msgs
  {
    name != "" && phone != "" && place != "" && age != 0
  }

  /** A form that shows no error line passes the gate. */
  lemma ErrorFreeFormAdvances(name: string, phone: string, place: string, age: int)
    requires PersonalInfoMessages(true, name, phone, place, age) == []
    ensures PersonalGate(name, phone, place, age)
  {
  }

  /** The gate ignores the phone format: with the other fields given, any
      non-empty malformed phone passes it while its format error is
      displayed. */
  lemma GateIgnoresPhoneFormat(name: string, phone: string, place: string, age: int)
    requires name != "" && phone != "" && place != "" && age != 0 && !IndianMobile(phone)
    ensures PersonalGate(name, phone, place, age)
    ensures PhoneMalformed in PersonalInfoMessages(true, name, phone, place, age)
  {
  }

  /** A five-digit number is one such phone. */
  lemma FiveDigitPhonePassesGate()
    ensures PersonalGate("Asha", "12345", "Pune", 30)
    ensures PhoneMalformed in PersonalInfoMessages(true, "Asha", "12345", "Pune", 30)
  {
    GateIgnoresPhoneFormat("Asha", "12345", "Pune", 30);
  }

  /** A multi-select result: entries drawn from `options`, none repeated. */
  predicate Selection(picked: seq<string>, options: seq<string>) {
    && (forall i :: 0 <= i < |picked| ==> picked[i] in options)
    && (forall i, j :: 0 <= i < j < |picked| ==> picked[i] != picked[j])
  }

  /** The test that decides whether Submit advances: it holds exactly when
      the symptoms page would show no error line. */
  function SubmitGate<F>(general: seq<string>, skin: seq<string>, file: Option<F>): (b: bool)
    ensures b <==> SymptomMessages(true, general, skin, file) == []
  {
    |general| > 0 && |skin| > 0 && file.Some?
  }

  /** The error lines of the symptoms page. */
  const SymptomLines := [GeneralMissing, SkinMissing, ImageMissing]

  /** The position on the page of the widget an error line belongs to. */
  function WidgetOrder(line: string): nat {
    if line == GeneralMissing then 0
    else if line == SkinMissing then 1
    else 2
  }

  /** Error lines listed top to bottom, at most one per widget. */
  predicate InWidgetOrder(lines: seq<string>) {
    forall i, j :: 0 <= i < j < |lines| ==> WidgetOrder(lines[i]) < WidgetOrder(lines[j])
  }

  /** At most one line per widget, each the widget's own line, listed in
      widget order: the result holds only lines of this page, in widget
      order, and each line is present exactly when its piece holds it. */
  lemma SymptomPieces(a: seq<string>, b: seq<string>, c: seq<string>)
    requires a == [] || a == [GeneralMissing]
    requires b == [] || b == [SkinMissing]
    requires c == [] || c == [ImageMissing]
    ensures InWidgetOrder(a + b + c)
    ensures forall m :: m in a + b + c ==> m in SymptomLines
    ensures GeneralMissing in a + b + c <==> a != []
    ensures SkinMissing in a + b + c <==> b != []
    ensures ImageMissing in a + b + c <==> c != []
  {
    assert WidgetOrder(GeneralMissing) == 0 && WidgetOrder(SkinMissing) == 1 && WidgetOrder(ImageMissing) == 2;
    var lines := a + b + c;
    forall k | 0 <= k < |lines|
      ensures WidgetOrder(lines[k]) == if k < |a| then 0 else if k < |a| + |b| then 1 else 2
    {
      if k < |a| { assert lines[k] == a[k]; }
      else if k < |a| + |b| { assert lines[k] == b[k - |a|]; }
      else { assert lines[k] == c[k - |a| - |b|]; }
    }
  }

  /** The error lines of the symptoms page, top to bottom, at most one per
      widget, shown once Submit has been pressed. */
  function SymptomMessages<F>(submitted: bool, general: seq<string>, skin: seq<string>, file: Option<F>): (msgs: seq<string>)
    ensures !submitted ==> msgs == []
    ensures GeneralMissing in msgs <==> submitted && general == []
    ensures SkinMissing in msgs <==> submitted && skin == []
    ensures ImageMissing in msgs <==> submitted && file.None?
    ensures submitted ==> (msgs == [] <==> general != [] && skin != [] && file.Some?)
    ensures forall m :: m in msgs ==> m in SymptomLines
    ensures InWidgetOrder(msgs)
  {
    if !submitted then []
    else
      var generalLine := if general == [] then [GeneralMissing] else [];
      var skinLine := if skin == [] then [SkinMissing] else [];
      var imageLine := if file.None? then [ImageMissing] else [];
      SymptomPieces(generalLine, skinLine, imageLine);
      generalLine + skinLine + imageLine
  }
}
