/** The pure parts of the intake form (ai_doctor/src/App.tsx): the symptom
    list editor of PatientInputForm and the payload DiagnosticSystem posts
    to /diagnose/start. */
module Intake {
  import opened Text
  import opened Numerals

  /** One row of the symptom list; duration is a bucket value such as
      "1_7_days" or "" when none is chosen, severity "mild", "moderate" or
      "severe". */
  datatype Symptom = Symptom(name: string, duration: string, severity: string)

  /** The property names updateSymptom is called with. */
  datatype SymptomField = Name | Duration | Severity

  function FieldOf(s: Symptom, f: SymptomField): string {
    match f
    case Name => s.name
    case Duration => s.duration
    case Severity => s.severity
  }

  /** `{ ...symptom, [field]: value }` */
  function WithField(s: Symptom, f: SymptomField, v: string): (r: Symptom)
    ensures FieldOf(r, f) == v
    ensures forall g :: g != f ==> FieldOf(r, g) == FieldOf(s, g)
  {
    match f
    case Name => s.(name := v)
    case Duration => s.(duration := v)
    case Severity => s.(severity := v)
  }

  /** addSymptom: the new symptom list and the new text of the input box. A
      non-blank input is appended as typed (untrimmed) with no duration and
      "mild" severity, and the box is cleared; a blank one changes nothing. */
  function AddSymptom(symptoms: seq<Symptom>, newSymptom: string): (r: (seq<Symptom>, string))
    ensures !IsBlank(Js, newSymptom) ==> r == (symptoms + [Symptom(newSymptom, "", "mild")], "")
    ensures IsBlank(Js, newSymptom) ==> r == (symptoms, newSymptom)
  {
    if Trim(Js, newSymptom) != "" then (symptoms + [Symptom(newSymptom, "", "mild")], "")
    else (symptoms, newSymptom)
  }

  /** removeSymptom: `symptoms.filter((_, i) => i !== index)`, walking the
      list with the index counted down. */
  function RemoveSymptom(symptoms: seq<Symptom>, index: int): (r: seq<Symptom>)
    ensures 0 <= index < |symptoms| ==> r == symptoms[..index] + symptoms[index + 1..]
    ensures !(0 <= index < |symptoms|) ==> r == symptoms
  {
    if symptoms == [] then []
    else
      var rest := RemoveSymptom(symptoms[1..], index - 1);
      assert 0 < index < |symptoms| ==> [symptoms[0]] + rest == symptoms[..index] + symptoms[index + 1..];
      (if index == 0 then [] else [symptoms[0]]) + rest
  }

  /** updateSymptom: `symptoms.map((symptom, i) => i === index ? { ...symptom, [field]: value } : symptom)`. */
  function UpdateSymptom(symptoms: seq<Symptom>, index: int, field: SymptomField, value: string): (r: seq<Symptom>)
    ensures |r| == |symptoms|
    ensures forall i :: 0 <= i < |r| && i != index ==> r[i] == symptoms[i]
    ensures 0 <= index < |r| ==> r[index] == WithField(symptoms[index], field, value)
  {
    if symptoms == [] then []
    else
      [if index == 0 then WithField(symptoms[0], field, value) else symptoms[0]]
      + UpdateSymptom(symptoms[1..], index - 1, field, value)
  }

  /** Every listed symptom has a name with a non-space character. */
  predicate NamesGiven(symptoms: seq<Symptom>) {
    forall i :: 0 <= i < |symptoms| ==> !IsBlank(Js, symptoms[i].name)
  }

  /** The form's edits keep every name non-blank: addSymptom only adds
      non-blank names, and the form only ever updates duration or severity. */
  lemma EditsKeepNamesGiven(symptoms: seq<Symptom>, newSymptom: string, index: int, field: SymptomField, value: string)
    requires NamesGiven(symptoms)
    requires field != Name
    ensures NamesGiven(AddSymptom(symptoms, newSymptom).0)
    ensures NamesGiven(RemoveSymptom(symptoms, index))
    ensures NamesGiven(UpdateSymptom(symptoms, index, field, value))
  {
    AddKeepsNamesGiven(symptoms, newSymptom);
    UpdateKeepsNames(symptoms, index, field, value);
  }

  lemma AddKeepsNamesGiven(symptoms: seq<Symptom>, newSymptom: string)
    requires NamesGiven(symptoms)
    ensures NamesGiven(AddSymptom(symptoms, newSymptom).0)
  {
  }

  /** Updating duration or severity keeps every name. */
  lemma UpdateKeepsNames(symptoms: seq<Symptom>, index: int, field: SymptomField, value: string)
    requires field != Name
    ensures var u := UpdateSymptom(symptoms, index, field, value);
      forall i :: 0 <= i < |u| ==> u[i].name == symptoms[i].name
  {
    var u := UpdateSymptom(symptoms, index, field, value);
    forall i | 0 <= i < |u| ensures u[i].name == symptoms[i].name {
      assert FieldOf(u[i], Name) == FieldOf(symptoms[i], Name);
    }
  }

  /** Free-text patient fields as the form holds them. */
  datatype PatientFields = PatientFields(name: string, age: string, gender: string, weight: string, height: string, bloodGroup: string)

  /** Free-text vital-sign fields as the form holds them. */
  datatype VitalFields = VitalFields(temperature: string, bpSystolic: string, bpDiastolic: string, spo2: string, pulse: string, respiratoryRate: string)

  datatype VitalsPayload = VitalsPayload(temperature: string, bp: string, pulse: string, spo2: string)

  /** The `patient_data` object of the start request. */
  datatype PatientPayload = PatientPayload(
    name: string, age: int, weight: int, gender: string, bloodGroup: string,
    symptoms: string, duration: string, vitals: VitalsPayload)

  const NoSymptoms := "No symptoms reported"
  const NoDuration := "N/A"

  /** `symptoms.map(s => s.name)` */
  function SymptomNames(symptoms: seq<Symptom>): (r: seq<string>)
    ensures |r| == |symptoms|
    ensures forall i :: 0 <= i < |r| ==> r[i] == symptoms[i].name
  {
    if symptoms == [] then [] else [symptoms[0].name] + SymptomNames(symptoms[1..])
  }

  /** `symptoms.map(s => s.name).join(', ') || 'No symptoms reported'` */
  function SymptomsText(symptoms: seq<Symptom>): (r: string)
    ensures r != ""
    ensures symptoms == [] ==> r == NoSymptoms
  {
    var joined := Join(SymptomNames(symptoms), ", ");
    if joined != "" then joined else NoSymptoms
  }

  /** `symptoms[0]?.duration.replace(/_/g, ' ') || 'N/A'` */
  function DurationText(symptoms: seq<Symptom>): (r: string)
    ensures r != "" && '_' !in r
  {
    if symptoms == [] then NoDuration
    else
      var d := ReplaceAll(symptoms[0].duration, '_', ' ');
      if d != "" then d else NoDuration
  }

  /** `${vitals.bp_systolic}/${vitals.bp_diastolic}` */
  function BloodPressure(systolic: string, diastolic: string): string {
    systolic + "/" + diastolic
  }

  /** The request body handleStartConversation builds from the form. */
  function BuildPayload(p: PatientFields, symptoms: seq<Symptom>, v: VitalFields): PatientPayload {
    PatientPayload(
      p.name, ParseIntOrZero(p.age), ParseIntOrZero(p.weight), p.gender, p.bloodGroup,
      SymptomsText(symptoms), DurationText(symptoms),
      VitalsPayload(v.temperature, BloodPressure(v.bpSystolic, v.bpDiastolic), v.pulse, v.spo2))
  }

  /** The sentinel stands for an empty list; a list built by the form's
      edits is sent as its names joined by ", ". */
  lemma SymptomsTextSentinel(symptoms: seq<Symptom>)
    ensures symptoms == [] ==> SymptomsText(symptoms) == NoSymptoms
    ensures symptoms != [] && NamesGiven(symptoms) ==> SymptomsText(symptoms) == Join(SymptomNames(symptoms), ", ")
  {
    JoinIsEmpty(SymptomNames(symptoms), ", ");
  }

  /** Only the first symptom's duration is sent, with every underscore
      turned into a space; no symptom or no chosen duration sends "N/A". */
  lemma DurationOfFirstSymptom(symptoms: seq<Symptom>)
    ensures symptoms == [] || symptoms[0].duration == "" ==> DurationText(symptoms) == NoDuration
    ensures symptoms != [] && symptoms[0].duration != "" ==>
      var d := symptoms[0].duration;
      var r := DurationText(symptoms);
      && |r| == |d|
      && (forall i :: 0 <= i < |d| ==> r[i] == (if d[i] == '_' then ' ' else d[i]))
      && '_' !in r
  {
  }

  /** The age sent is the leading integer of what was typed in the age box. */
  lemma PayloadAge(p: PatientFields, symptoms: seq<Symptom>, v: VitalFields, age: nat, rest: string)
    requires p.age == Decimal(age) + rest
    requires rest == [] || !IsDigit(rest[0], 10)
    requires age == 0 && rest != [] ==> rest[0] != 'x' && rest[0] != 'X'
    ensures BuildPayload(p, symptoms, v).age == age
  {
    ParseIntOfDecimal(age, rest);
  }

  /** The weight sent is the leading integer of what was typed in the weight box. */
  lemma PayloadWeight(p: PatientFields, symptoms: seq<Symptom>, v: VitalFields, weight: nat, rest: string)
    requires p.weight == Decimal(weight) + rest
    requires rest == [] || !IsDigit(rest[0], 10)
    requires weight == 0 && rest != [] ==> rest[0] != 'x' && rest[0] != 'X'
    ensures BuildPayload(p, symptoms, v).weight == weight
  {
    ParseIntOfDecimal(weight, rest);
  }

  /** A box holding no digit at all sends 0. */
  lemma PayloadUnparsedNumbersAreZero(p: PatientFields, symptoms: seq<Symptom>, v: VitalFields)
    ensures (forall i :: 0 <= i < |p.age| ==> !IsDigit(p.age[i], 10)) ==> BuildPayload(p, symptoms, v).age == 0
    ensures (forall i :: 0 <= i < |p.weight| ==> !IsDigit(p.weight[i], 10)) ==> BuildPayload(p, symptoms, v).weight == 0
  {
    if forall i :: 0 <= i < |p.age| ==> !IsDigit(p.age[i], 10) {
      ParseIntWithoutDigits(p.age);
    }
    if forall i :: 0 <= i < |p.weight| ==> !IsDigit(p.weight[i], 10) {
      ParseIntWithoutDigits(p.weight);
    }
  }

  /** The blood pressure sent splits back at its first "/" into the two
      boxes, when the systolic box holds no "/". */
  lemma PayloadPressure(p: PatientFields, symptoms: seq<Symptom>, v: VitalFields)
    requires '/' !in v.bpSystolic
    ensures SplitAtFirst(BuildPayload(p, symptoms, v).vitals.bp, '/') == (v.bpSystolic, v.bpDiastolic)
  {
    SplitAtFirstOfGlued(v.bpSystolic, '/', v.bpDiastolic);
  }
}
