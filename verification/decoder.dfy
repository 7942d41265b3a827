/**
 The inverse of the feature encoder on the answers the form offers. Reading
 a vector back into an applicant record shows that the encoder loses nothing
 for such input: the record can be recovered from its vector.
 */
module Decoder {
  import opened Wrappers
  import opened Indicators
  import opened Codes
  import opened Encoder

  /** The label a code stands for: code i + 1 is `labels[i]`; any other number has none. */
  function CodeLabel(x: real, labels: seq<string>): (r: Option<string>)
    ensures r.Some? ==> r.value in labels
  {
    if x == x.Floor as real && 1 <= x.Floor <= |labels| then Some(labels[x.Floor - 1]) else None
  }

  /** Reading back the code of a table key gives the key. */
  lemma CodeLabelOfLookup(s: string, labels: seq<string>, table: map<string, int>)
    requires Enumerates(labels, table) && s in table
    ensures CodeLabel(Lookup(s, table) as real, labels) == Some(s)
  {
  }

  /** Looking up a label read from a code gives the code. */
  lemma LookupOfCodeLabel(x: real, labels: seq<string>, table: map<string, int>)
    requires Enumerates(labels, table) && CodeLabel(x, labels).Some?
    ensures CodeLabel(x, labels).value in table
    ensures Lookup(CodeLabel(x, labels).value, table) as real == x
  {
  }

  /** The option a one-hot group selects: the `k`-th label when position `k` is set. */
  function GroupLabel(v: seq<real>, labels: seq<string>): (r: Option<string>)
    ensures r.Some? ==> r.value in labels
  {
    match HotIndex(v)
    case Some(k) => if k < |labels| then Some(labels[k]) else None
    case None => None
  }

  lemma DependentsOptionsBuckets()
    ensures forall k :: 0 <= k < |DependentsOptions| ==> DependentsBucket(DependentsOptions[k]) == k
  {
  }

  lemma PropertyOptionsBuckets()
    ensures forall k :: 0 <= k < |PropertyOptions| ==> PropertyBucket(PropertyOptions[k]) == k
  {
  }

  lemma YesNoOptionsAreTableKeys()
    ensures forall s :: s in YesNoOptions <==> s in YesNoTable
  {
  }

  /**
   The applicant record a vector encodes, or None when the vector is not the
   encoding of any record whose answers are all offered by the form.
   */
  function Decode(v: seq<real>): (r: Option<Applicant>)
    ensures r.Some? ==> OptionSets(r.value)
  {
    if |v| != 16 then None
    else
      var gender := CodeLabel(v[5], GenderLabels);
      var married := CodeLabel(v[6], YesNoLabels);
      var dependents := GroupLabel(v[7..11], DependentsOptions);
      var education := CodeLabel(v[11], EducationLabels);
      var selfEmployed := CodeLabel(v[12], YesNoLabels);
      var propertyArea := GroupLabel(v[13..], PropertyOptions);
      if gender.None? || married.None? || dependents.None? || education.None?
         || selfEmployed.None? || propertyArea.None?
      then None
      else
        Some(Applicant(v[0], v[1], v[2], v[3], v[4],
                       gender.value, married.value, selfEmployed.value,
                       dependents.value, education.value, propertyArea.value))
  }

  /** Every record whose answers the form offers is recovered from its vector. */
  lemma DecodeEncode(a: Applicant)
    requires OptionSets(a)
    ensures Decode(Encode(a)) == Some(a)
  {
    var v := Encode(a);
    EncodeLayout(a);
    LabelsEnumerateTables();
    YesNoOptionsAreTableKeys();
    CodeLabelOfLookup(a.gender, GenderLabels, GenderTable);
    CodeLabelOfLookup(a.married, YesNoLabels, YesNoTable);
    CodeLabelOfLookup(a.education, EducationLabels, EducationTable);
    CodeLabelOfLookup(a.selfEmployed, YesNoLabels, YesNoTable);
    DependentsOptionsBuckets();
    PropertyOptionsBuckets();
    var dk := DependentsBucket(a.dependents);
    HotIndexOfOneHot(dk, 4);
    assert GroupLabel(v[7..11], DependentsOptions) == Some(a.dependents);
    var pk := PropertyBucket(a.propertyArea);
    HotIndexOfOneHot(pk, 3);
    assert GroupLabel(v[13..], PropertyOptions) == Some(a.propertyArea);
    assert v[..5][0] == v[0] && v[..5][1] == v[1] && v[..5][2] == v[2];
    assert v[..5][3] == v[3] && v[..5][4] == v[4];
  }

  /** Whatever Decode returns encodes back to the very vector it was read from. */
  lemma EncodeDecode(v: seq<real>)
    requires Decode(v).Some?
    ensures Encode(Decode(v).value) == v
  {
  }

  /** On the answers the form offers, different records never share a vector. */
  lemma EncodeInjectiveOnOptions(a: Applicant, b: Applicant)
    requires OptionSets(a) && OptionSets(b)
    ensures Encode(a) == Encode(b) <==> a == b
  {
    DecodeEncode(a);
    DecodeEncode(b);
  }
}
