/**
 The feature encoder of the Prediction page of loan_app.py: one applicant
 record becomes the 16-element numeric vector the loan classifier takes.
 */
module Encoder {
  import opened Indicators
  import opened Codes

  /** One applicant as read from the form: five numbers and six categorical answers. */
  datatype Applicant = Applicant(
    applicantIncome: real,
    coapplicantIncome: real,
    loanAmount: real,
    loanAmountTerm: real,
    creditHistory: real,
    gender: string,
    married: string,
    selfEmployed: string,
    dependents: string,
    education: string,
    propertyArea: string)

  /**
   Radio and select-box option lists whose entries are not the keys of a
   table the encoder reads (married, self-employed, dependents, property area,
   loan term, credit history).
   */
  const YesNoOptions: seq<string> := ["Yes", "No"]
  const DependentsOptions: seq<string> := ["0", "1", "2", "3+"]
  const PropertyOptions: seq<string> := ["Rural", "Urban", "Semiurban"]
  const LoanTermOptions: seq<real> := [12.0, 36.0, 60.0, 84.0, 120.0, 180.0, 240.0, 300.0, 360.0]
  const CreditHistoryOptions: seq<real> := [0.0, 1.0]

  /** Every categorical answer is one of the options the form's radio buttons offer. */
  predicate OptionSets(a: Applicant) {
    && a.gender in GenderTable
    && a.married in YesNoOptions
    && a.selfEmployed in YesNoOptions
    && a.dependents in DependentsOptions
    && a.education in EducationTable
    && a.propertyArea in PropertyOptions
  }

  /** The numbers are within the form's sliders and select boxes. */
  predicate NumericWidgets(a: Applicant) {
    && 0.0 <= a.applicantIncome <= 10000.0 && a.applicantIncome == a.applicantIncome.Floor as real
    && 0.0 <= a.coapplicantIncome <= 10000.0 && a.coapplicantIncome == a.coapplicantIncome.Floor as real
    && 9.0 <= a.loanAmount <= 700.0
    && a.loanAmountTerm in LoanTermOptions
    && a.creditHistory in CreditHistoryOptions
  }

  /** Everything the form can submit. */
  predicate WidgetDomain(a: Applicant) {
    NumericWidgets(a) && OptionSets(a)
  }

  /** The dependents indicator that is set: "0", "1", "2" their own, any other string the last. */
  function DependentsBucket(d: string): nat
  {
    if d == "0" then 0 else if d == "1" then 1 else if d == "2" then 2 else 3
  }

  /** The four dependents indicators. */
  function DependentsOneHot(d: string): (r: seq<real>)
    ensures |r| == 4 && ExactlyOneHot(r)
    ensures r[0] == 1.0 <==> d == "0"
    ensures r[1] == 1.0 <==> d == "1"
    ensures r[2] == 1.0 <==> d == "2"
    ensures r[3] == 1.0 <==> d != "0" && d != "1" && d != "2"
  {
    var k := DependentsBucket(d);
    OneHotIsExactlyOne(k, 4);
    OneHot(k, 4)
  }

  /** The property-area indicator that is set: Rural, Urban, and Semiurban for any other string. */
  function PropertyBucket(p: string): nat
  {
    if p == "Rural" then 0 else if p == "Urban" then 1 else 2
  }

  /** The three property-area indicators, in the order Rural, Urban, Semiurban. */
  function PropertyOneHot(p: string): (r: seq<real>)
    ensures |r| == 3 && ExactlyOneHot(r)
    ensures r[0] == 1.0 <==> p == "Rural"
    ensures r[1] == 1.0 <==> p == "Urban"
    ensures r[2] == 1.0 <==> p != "Rural" && p != "Urban"
  {
    var k := PropertyBucket(p);
    OneHotIsExactlyOne(k, 3);
    OneHot(k, 3)
  }

  /** The sixteen columns of `feature_list`, by name. */
  datatype Column =
    | ApplicantIncome | CoapplicantIncome | LoanAmount | LoanAmountTerm | CreditHistory
    | Gender | Married
    | Dependents0 | Dependents1 | Dependents2 | Dependents3Plus
    | Education | SelfEmployed
    | Rural | Urban | Semiurban

  /** The column order of the feature vector. */
  const Columns: seq<Column> := [
    ApplicantIncome, CoapplicantIncome, LoanAmount, LoanAmountTerm, CreditHistory,
    Gender, Married,
    Dependents0, Dependents1, Dependents2, Dependents3Plus,
    Education, SelfEmployed,
    Rural, Urban, Semiurban]

  function Indicator(b: bool): real {
    if b then 1.0 else 0.0
  }

  /**
   What a column holds for an applicant, stated column by column and
   independently of how the vector is assembled.
   */
  function ColumnValue(a: Applicant, c: Column): real {
    match c
    case ApplicantIncome => a.applicantIncome
    case CoapplicantIncome => a.coapplicantIncome
    case LoanAmount => a.loanAmount
    case LoanAmountTerm => a.loanAmountTerm
    case CreditHistory => a.creditHistory
    case Gender => GenderCode(a.gender) as real
    case Married => FValue(a.married) as real
    case Dependents0 => Indicator(a.dependents == "0")
    case Dependents1 => Indicator(a.dependents == "1")
    case Dependents2 => Indicator(a.dependents == "2")
    case Dependents3Plus => Indicator(a.dependents != "0" && a.dependents != "1" && a.dependents != "2")
    case Education => EducationCode(a.education) as real
    case SelfEmployed => FValue(a.selfEmployed) as real
    case Rural => Indicator(a.propertyArea == "Rural")
    case Urban => Indicator(a.propertyArea == "Urban")
    case Semiurban => Indicator(a.propertyArea != "Rural" && a.propertyArea != "Urban")
  }

  /** `feature_list`: the applicant's feature vector. */
  function Encode(a: Applicant): (v: seq<real>)
    ensures |v| == |Columns|
  {
    [a.applicantIncome, a.coapplicantIncome, a.loanAmount, a.loanAmountTerm, a.creditHistory,
     GenderCode(a.gender) as real, FValue(a.married) as real]
    + DependentsOneHot(a.dependents)
    + [EducationCode(a.education) as real, FValue(a.selfEmployed) as real]
    + PropertyOneHot(a.propertyArea)
  }

  /** Every element of the vector is what its column, by name, says it holds. */
  lemma EncodeMatchesColumns(a: Applicant)
    ensures forall i :: 0 <= i < |Columns| ==> Encode(a)[i] == ColumnValue(a, Columns[i])
  {
    var v := Encode(a);
    var dep, prop := DependentsOneHot(a.dependents), PropertyOneHot(a.propertyArea);
    forall i | 0 <= i < |Columns|
      ensures v[i] == ColumnValue(a, Columns[i])
    {
      if 7 <= i < 11 {
        assert v[i] == dep[i - 7];
      } else if 13 <= i {
        assert v[i] == prop[i - 13];
      }
    }
  }

  /** Where each part of the record sits in the vector. */
  lemma EncodeLayout(a: Applicant)
    ensures Encode(a)[..5] == [a.applicantIncome, a.coapplicantIncome, a.loanAmount, a.loanAmountTerm, a.creditHistory]
    ensures Encode(a)[5] == GenderCode(a.gender) as real
    ensures Encode(a)[6] == FValue(a.married) as real
    ensures Encode(a)[7..11] == DependentsOneHot(a.dependents)
    ensures Encode(a)[11] == EducationCode(a.education) as real
    ensures Encode(a)[12] == FValue(a.selfEmployed) as real
    ensures Encode(a)[13..] == PropertyOneHot(a.propertyArea)
  {
  }

  /** The five numbers pass through unchanged into the first five elements. */
  lemma NumbersPassThrough(a: Applicant)
    ensures Encode(a)[0] == a.applicantIncome
    ensures Encode(a)[1] == a.coapplicantIncome
    ensures Encode(a)[2] == a.loanAmount
    ensures Encode(a)[3] == a.loanAmountTerm
    ensures Encode(a)[4] == a.creditHistory
  {
  }

  /** The categorical answers are all the same in both records. */
  predicate SameAnswers(a: Applicant, b: Applicant) {
    && a.gender == b.gender && a.married == b.married && a.selfEmployed == b.selfEmployed
    && a.dependents == b.dependents && a.education == b.education && a.propertyArea == b.propertyArea
  }

  /** The numbers are all the same in both records. */
  predicate SameNumbers(a: Applicant, b: Applicant) {
    && a.applicantIncome == b.applicantIncome && a.coapplicantIncome == b.coapplicantIncome
    && a.loanAmount == b.loanAmount && a.loanAmountTerm == b.loanAmountTerm
    && a.creditHistory == b.creditHistory
  }

  /**
   The numbers affect only the first five elements and the answers only the
   other eleven.
   */
  lemma NumbersAndAnswersSeparate(a: Applicant, b: Applicant)
    ensures SameAnswers(a, b) ==> Encode(a)[5..] == Encode(b)[5..]
    ensures SameNumbers(a, b) ==> Encode(a)[..5] == Encode(b)[..5]
  {
  }

  /**
   Every code column holds 0, 1 or 2; every indicator column holds 0 or 1, and
   each of the two indicator groups has exactly one 1.
   */
  lemma CodesAndIndicatorsInRange(a: Applicant)
    ensures forall c :: c in [5, 6, 11, 12] ==> Encode(a)[c] in {0.0, 1.0, 2.0}
    ensures forall i :: (7 <= i < 11 || 13 <= i < 16) ==> Encode(a)[i] in {0.0, 1.0}
    ensures ExactlyOneHot(Encode(a)[7..11]) && ExactlyOneHot(Encode(a)[13..16])
  {
    EncodeLayout(a);
    var v := Encode(a);
    assert v[13..16] == v[13..];
    forall i | 7 <= i < 11 || 13 <= i < 16
      ensures v[i] in {0.0, 1.0}
    {
      if i < 11 {
        assert v[i] == v[7..11][i - 7];
      } else {
        assert v[i] == v[13..][i - 13];
      }
    }
  }

  /**
   A code column is 0, the fallback, exactly when its answer is not one of
   the options the form offers for it.
   */
  lemma FallbackIffOutsideOptions(a: Applicant)
    ensures Encode(a)[5] == 0.0 <==> a.gender !in GenderTable
    ensures Encode(a)[6] == 0.0 <==> a.married !in YesNoOptions
    ensures Encode(a)[11] == 0.0 <==> a.education !in EducationTable
    ensures Encode(a)[12] == 0.0 <==> a.selfEmployed !in YesNoOptions
  {
  }

  /** For answers the form offers, no fallback fires: every code column is 1 or 2. */
  lemma NoFallbackOnOptions(a: Applicant)
    requires OptionSets(a)
    ensures forall c :: c in [5, 6, 11, 12] ==> Encode(a)[c] in {1.0, 2.0}
  {
  }

  /**
   Two records give the same vector exactly when their numbers agree and
   each answer lands on the same code or indicator as the other's: the only
   information the encoder drops is which unrecognised string was given.
   */
  lemma EncodeEqualIff(a: Applicant, b: Applicant)
    ensures Encode(a) == Encode(b) <==>
      && SameNumbers(a, b)
      && GenderCode(a.gender) == GenderCode(b.gender)
      && FValue(a.married) == FValue(b.married)
      && DependentsBucket(a.dependents) == DependentsBucket(b.dependents)
      && EducationCode(a.education) == EducationCode(b.education)
      && FValue(a.selfEmployed) == FValue(b.selfEmployed)
      && PropertyBucket(a.propertyArea) == PropertyBucket(b.propertyArea)
  {
    EncodeLayout(a);
    EncodeLayout(b);
    if Encode(a) == Encode(b) {
      assert Encode(a)[..5][0] == Encode(b)[..5][0] && Encode(a)[..5][1] == Encode(b)[..5][1];
      assert Encode(a)[..5][2] == Encode(b)[..5][2] && Encode(a)[..5][3] == Encode(b)[..5][3];
      assert Encode(a)[..5][4] == Encode(b)[..5][4];
      OneHotInjective(DependentsBucket(a.dependents), DependentsBucket(b.dependents), 4);
      OneHotInjective(PropertyBucket(a.propertyArea), PropertyBucket(b.propertyArea), 3);
    }
  }

  /** "3+" and every string other than "0", "1" and "2" give the same vector. */
  lemma UnrecognisedDependentsCollapse(a: Applicant, d: string)
    requires d != "0" && d != "1" && d != "2"
    ensures Encode(a.(dependents := d)) == Encode(a.(dependents := "3+"))
    ensures Encode(a.(dependents := d))[7..11] == [0.0, 0.0, 0.0, 1.0]
  {
  }

  /** "Semiurban" and every string other than "Rural" and "Urban" give the same vector. */
  lemma UnrecognisedPropertyIsSemiurban(a: Applicant, p: string)
    requires p != "Rural" && p != "Urban"
    ensures Encode(a.(propertyArea := p)) == Encode(a.(propertyArea := "Semiurban"))
    ensures Encode(a.(propertyArea := p))[13..] == [0.0, 0.0, 1.0]
  {
  }

  /** The vector of anything the form can submit has no negative element. */
  lemma WidgetVectorNonNegative(a: Applicant)
    requires WidgetDomain(a)
    ensures forall i :: 0 <= i < |Encode(a)| ==> Encode(a)[i] >= 0.0
  {
    var v := Encode(a);
    NumbersPassThrough(a);
    CodesAndIndicatorsInRange(a);
    assert v[3] >= 0.0 by {
      assert forall t :: t in LoanTermOptions ==> t >= 12.0;
    }
    forall i | 0 <= i < |v|
      ensures v[i] >= 0.0
    {
      if i in [5, 6, 11, 12] {
        assert v[i] in {0.0, 1.0, 2.0};
      } else if 5 <= i {
        assert v[i] in {0.0, 1.0};
      }
    }
  }

  /** A complete example: a graduate man, unmarried, no dependents, rural property. */
  lemma ExampleVector()
    ensures Encode(Applicant(500.0, 0.0, 200.0, 360.0, 1.0, "Male", "No", "No", "0", "Graduate", "Rural"))
         == [500.0, 0.0, 200.0, 360.0, 1.0, 1.0, 1.0, 1.0, 0.0, 0.0, 0.0, 1.0, 1.0, 1.0, 0.0, 0.0]
  {
  }
}
