/**
 The lookup encodings of loan_app.py: a dictionary lookup that falls back to
 0 for an unknown key, and the three fixed tables it is used with.
 */
module Codes {

  /** `my_dict.get(val, 0)`: the code of a key, 0 for any other string. */
  function Lookup(val: string, table: map<string, int>): (r: int)
    ensures val in table ==> r == table[val]
    ensures val !in table ==> r == 0
    ensures r == 0 || r in table.Values
  {
    if val in table then table[val] else 0
  }

  /**
   A general fact about the `dict.get(val, 0)` idiom, for any table: when no
   key has the code 0, a result of 0 means exactly that the string is not a
   key. All three tables below have only the codes 1 and 2.
   */
  lemma LookupFallbackIff(val: string, table: map<string, int>)
    requires 0 !in table.Values
    ensures Lookup(val, table) == 0 <==> val !in table
  {
  }

  /** Codes of the yes/no questions (married, self-employed). */
  const YesNoTable: map<string, int> := map["No" := 1, "Yes" := 2]

  /** Codes of the gender question. */
  const GenderTable: map<string, int> := map["Male" := 1, "Female" := 2]

  /** Codes of the education question. */
  const EducationTable: map<string, int> := map["Graduate" := 1, "Not Graduate" := 2]

  /**
   The labels of a table listed by code: label i has code i + 1, and every key
   of the table is listed. Used to read a code back as the label it encodes.
   */
  ghost predicate Enumerates(labels: seq<string>, table: map<string, int>) {
    && (forall i :: 0 <= i < |labels| ==> labels[i] in table && table[labels[i]] == i + 1)
    && (forall s :: s in table ==> s in labels)
  }

  const YesNoLabels: seq<string> := ["No", "Yes"]
  const GenderLabels: seq<string> := ["Male", "Female"]
  const EducationLabels: seq<string> := ["Graduate", "Not Graduate"]

  lemma LabelsEnumerateTables()
    ensures Enumerates(YesNoLabels, YesNoTable)
    ensures Enumerates(GenderLabels, GenderTable)
    ensures Enumerates(EducationLabels, EducationTable)
  {
  }

  /** `get_fvalue`: "No" is 1, "Yes" is 2, and any other string is 0. */
  function FValue(val: string): (r: int)
    ensures r == 1 <==> val == "No"
    ensures r == 2 <==> val == "Yes"
    ensures r == 0 <==> val != "No" && val != "Yes"
  {
    Lookup(val, YesNoTable)
  }

  /** Gender through `gender_dict`: "Male" is 1, "Female" is 2, any other string is 0. */
  function GenderCode(val: string): (r: int)
    ensures r == 1 <==> val == "Male"
    ensures r == 2 <==> val == "Female"
    ensures r == 0 <==> val != "Male" && val != "Female"
  {
    Lookup(val, GenderTable)
  }

  /** Education through `edu`: "Graduate" is 1, "Not Graduate" is 2, any other string is 0. */
  function EducationCode(val: string): (r: int)
    ensures r == 1 <==> val == "Graduate"
    ensures r == 2 <==> val == "Not Graduate"
    ensures r == 0 <==> val != "Graduate" && val != "Not Graduate"
  {
    Lookup(val, EducationTable)
  }
}
