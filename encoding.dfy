/**
 * Categorical encoding and feature-vector assembly of the `/predict`
 * handler: five constant lookup tables, each read with `.get(key, 0)`,
 * and the fixed 12-slot vector handed to the fitted preprocessor.
 */
module Encoding {
  import opened Text

  /** The request body. Numeric fields keep the types the handler passes on unchanged. */
  datatype LoanInput = LoanInput(
    personGender: string,
    personAge: int,
    personEducation: string,
    personEmpExp: int,
    personIncome: real,
    personHomeOwnership: string,
    creditScore: int,
    previousLoanDefaultsOnFile: string,
    loanAmnt: real,
    loanIntent: string)

  type Table = map<string, int>

  const GenderMap: Table := map["male" := 0, "female" := 1]
  const EducationMap: Table := map["High School" := 0, "Bachelor" := 1, "Master" := 2, "Doctor" := 3]
  const HomeOwnershipMap: Table := map["RENT" := 0, "OWN" := 1, "MORTGAGE" := 2]
  const LoanIntentMap: Table := map["PERSONAL" := 0, "EDUCATION" := 1, "MEDICAL" := 2, "VENTURE" := 3, "HOME" := 4]
  const DefaultsMap: Table := map["NO" := 0, "YES" := 1]

  /** Python's `table.get(key, 0)`: a key missing from the table silently reads as 0. */
  function Get(table: Table, key: string): int {
    if key in table then table[key] else 0
  }

  /** The codes of `table` are exactly 0 .. size - 1, each used by exactly one key. */
  ghost predicate IsEnumeration(table: Table, size: nat) {
    && (forall k :: k in table ==> 0 <= table[k] < size)
    && (forall k, k' :: k in table && k' in table && table[k] == table[k'] ==> k == k')
    && (forall c :: 0 <= c < size ==> c in table.Values)
  }

  /** Each lookup table is a one-to-one numbering of its keys from 0. */
  lemma GenderTableIsEnumeration()
    ensures IsEnumeration(GenderMap, 2)
  {
    assert GenderMap["male"] == 0 && GenderMap["female"] == 1;
  }

  lemma EducationTableIsEnumeration()
    ensures IsEnumeration(EducationMap, 4)
  {
    assert EducationMap["High School"] == 0 && EducationMap["Bachelor"] == 1;
    assert EducationMap["Master"] == 2 && EducationMap["Doctor"] == 3;
  }

  lemma HomeOwnershipTableIsEnumeration()
    ensures IsEnumeration(HomeOwnershipMap, 3)
  {
    assert HomeOwnershipMap["RENT"] == 0 && HomeOwnershipMap["OWN"] == 1 && HomeOwnershipMap["MORTGAGE"] == 2;
  }

  lemma LoanIntentTableIsEnumeration()
    ensures IsEnumeration(LoanIntentMap, 5)
  {
    assert LoanIntentMap["PERSONAL"] == 0 && LoanIntentMap["EDUCATION"] == 1 && LoanIntentMap["MEDICAL"] == 2;
    assert LoanIntentMap["VENTURE"] == 3 && LoanIntentMap["HOME"] == 4;
  }

  lemma DefaultsTableIsEnumeration()
    ensures IsEnumeration(DefaultsMap, 2)
  {
    assert DefaultsMap["NO"] == 0 && DefaultsMap["YES"] == 1;
  }

  lemma TablesAreEnumerations()
    ensures IsEnumeration(GenderMap, 2)
    ensures IsEnumeration(EducationMap, 4)
    ensures IsEnumeration(HomeOwnershipMap, 3)
    ensures IsEnumeration(LoanIntentMap, 5)
    ensures IsEnumeration(DefaultsMap, 2)
  {
    GenderTableIsEnumeration();
    EducationTableIsEnumeration();
    HomeOwnershipTableIsEnumeration();
    LoanIntentTableIsEnumeration();
    DefaultsTableIsEnumeration();
  }

  /** Gender is lower-cased before the lookup; 1 means "female". */
  function GenderCode(gender: string): (c: int)
    ensures 0 <= c <= 1
    ensures c == 1 <==> ToLower(gender) == "female"
  {
    Get(GenderMap, ToLower(gender))
  }

  /** Exact, case-sensitive lookup; an unknown level reads as "High School". */
  function EducationCode(education: string): (c: int)
    ensures 0 <= c <= 3
    ensures c == 0 <==> education == "High School" || education !in EducationMap
  {
    Get(EducationMap, education)
  }

  /** Exact, case-sensitive lookup; an unknown status reads as "RENT". */
  function HomeOwnershipCode(homeOwnership: string): (c: int)
    ensures 0 <= c <= 2
    ensures c == 0 <==> homeOwnership == "RENT" || homeOwnership !in HomeOwnershipMap
  {
    Get(HomeOwnershipMap, homeOwnership)
  }

  /** Exact, case-sensitive lookup; an unknown flag reads as "NO". */
  function DefaultsCode(defaults: string): (c: int)
    ensures 0 <= c <= 1
    ensures c == 1 <==> defaults == "YES"
  {
    Get(DefaultsMap, defaults)
  }

  /** Exact, case-sensitive lookup; an unknown intent reads as "PERSONAL". */
  function LoanIntentCode(intent: string): (c: int)
    ensures 0 <= c <= 4
    ensures c == 0 <==> intent == "PERSONAL" || intent !in LoanIntentMap
  {
    Get(LoanIntentMap, intent)
  }

  const FeatureCount := 12

  predicate IsIntegral(r: real) {
    r.Floor as real == r
  }

  /** A whole number in 0 .. size - 1. */
  predicate IsCode(r: real, size: nat) {
    IsIntegral(r) && 0.0 <= r < size as real
  }

  /**
   * The shape of every vector the handler builds: 12 slots, the two
   * reserved slots 2 and 4 zero, every categorical slot a code of its
   * table, and the integer fields whole numbers.
   */
  predicate IsFeatureVector(v: seq<real>) {
    && |v| == FeatureCount
    && IsCode(v[0], 2)
    && IsIntegral(v[1])
    && v[2] == 0.0
    && IsCode(v[3], 4)
    && v[4] == 0.0
    && IsIntegral(v[5])
    && IsCode(v[7], 3)
    && IsIntegral(v[8])
    && IsCode(v[9], 2)
    && IsCode(v[11], 5)
  }

  /** The array `X` of the handler (its single row), before scaling. */
  function Encode(data: LoanInput): (v: seq<real>)
    ensures IsFeatureVector(v)
  {
    [ GenderCode(data.personGender) as real,
      data.personAge as real,
      0.0,
      EducationCode(data.personEducation) as real,
      0.0,
      data.personEmpExp as real,
      data.personIncome,
      HomeOwnershipCode(data.personHomeOwnership) as real,
      data.creditScore as real,
      DefaultsCode(data.previousLoanDefaultsOnFile) as real,
      data.loanAmnt,
      LoanIntentCode(data.loanIntent) as real ]
  }

  /** `key` itself when the table knows it, otherwise the key whose code is 0. */
  ghost function Canonical(key: string, table: Table, fallback: string): string {
    if key in table then key else fallback
  }

  /**
   * The representative of all inputs the encoder cannot tell apart: gender
   * lower-cased, and every categorical value the tables do not know
   * replaced by the key with code 0.
   */
  ghost function CanonicalInput(data: LoanInput): LoanInput {
    data.(
      personGender := Canonical(ToLower(data.personGender), GenderMap, "male"),
      personEducation := Canonical(data.personEducation, EducationMap, "High School"),
      personHomeOwnership := Canonical(data.personHomeOwnership, HomeOwnershipMap, "RENT"),
      previousLoanDefaultsOnFile := Canonical(data.previousLoanDefaultsOnFile, DefaultsMap, "NO"),
      loanIntent := Canonical(data.loanIntent, LoanIntentMap, "PERSONAL"))
  }

  /** The key a code stands for. */
  ghost function KeyOf(table: Table, c: int): (k: string)
    requires c in table.Values
    ensures k in table && table[k] == c
  {
    var k :| k in table && table[k] == c; k
  }

  /** Reads a feature vector back into the (canonical) input it encodes. */
  ghost function Decode(v: seq<real>): LoanInput
    requires IsFeatureVector(v)
  {
    TablesAreEnumerations();
    LoanInput(
      KeyOf(GenderMap, v[0].Floor),
      v[1].Floor,
      KeyOf(EducationMap, v[3].Floor),
      v[5].Floor,
      v[6],
      KeyOf(HomeOwnershipMap, v[7].Floor),
      v[8].Floor,
      KeyOf(DefaultsMap, v[9].Floor),
      v[10],
      KeyOf(LoanIntentMap, v[11].Floor))
  }

  /** Decoding the code of any key gives the key back, or the fallback for an unknown key. */
  lemma DecodeCode(table: Table, size: nat, key: string, fallback: string)
    requires IsEnumeration(table, size)
    requires fallback in table && table[fallback] == 0
    ensures Get(table, key) in table.Values
    ensures KeyOf(table, Get(table, key)) == Canonical(key, table, fallback)
  {
  }

  /** Encoding the key a code stands for gives the code back. */
  lemma EncodeKey(table: Table, size: nat, c: int)
    requires IsEnumeration(table, size)
    requires 0 <= c < size
    ensures Get(table, KeyOf(table, c)) == c
  {
  }

  /** Decoding the encoding of an input gives its canonical form. */
  lemma DecodeEncode(data: LoanInput)
    ensures Decode(Encode(data)) == CanonicalInput(data)
  {
    TablesAreEnumerations();
    DecodeCode(GenderMap, 2, ToLower(data.personGender), "male");
    DecodeCode(EducationMap, 4, data.personEducation, "High School");
    DecodeCode(HomeOwnershipMap, 3, data.personHomeOwnership, "RENT");
    DecodeCode(DefaultsMap, 2, data.previousLoanDefaultsOnFile, "NO");
    DecodeCode(LoanIntentMap, 5, data.loanIntent, "PERSONAL");
  }

  /** Every well-formed feature vector is the encoding of some input. */
  lemma EncodeDecode(v: seq<real>)
    requires IsFeatureVector(v)
    ensures Encode(Decode(v)) == v
  {
    TablesAreEnumerations();
    var data := Decode(v);
    var gender := data.personGender;
    assert gender == "male" || gender == "female";
    ToLowerFixesLower(gender);
    EncodeKey(GenderMap, 2, v[0].Floor);
    EncodeKey(EducationMap, 4, v[3].Floor);
    EncodeKey(HomeOwnershipMap, 3, v[7].Floor);
    EncodeKey(DefaultsMap, 2, v[9].Floor);
    EncodeKey(LoanIntentMap, 5, v[11].Floor);
  }

  /** An input and its canonical form encode to the same vector. */
  lemma EncodeCanonical(data: LoanInput)
    ensures Encode(CanonicalInput(data)) == Encode(data)
  {
    ToLowerIdempotent(data.personGender);
    var lower := ToLower(data.personGender);
    if lower in GenderMap {
      ToLowerFixesLower(lower);
    } else {
      ToLowerFixesLower("male");
    }
  }

  /**
   * Two inputs encode to the same vector exactly when they have the same
   * canonical form: the encoder forgets the letter case of the gender and
   * which unknown categorical value was sent, and nothing else.
   */
  lemma EncodeEqualIff(x: LoanInput, y: LoanInput)
    ensures Encode(x) == Encode(y) <==> CanonicalInput(x) == CanonicalInput(y)
  {
    DecodeEncode(x);
    DecodeEncode(y);
    if CanonicalInput(x) == CanonicalInput(y) {
      EncodeCanonical(x);
      EncodeCanonical(y);
    }
  }

  /** Gender strings with the same lower-case form encode alike. */
  lemma GenderCaseInsensitive(g: string, g': string)
    requires ToLower(g) == ToLower(g')
    ensures GenderCode(g) == GenderCode(g')
  {
  }

  /** A gender encodes to 1 exactly when it spells "female" in any mix of letter case. */
  lemma GenderFemaleIff(g: string)
    ensures GenderCode(g) == 1 <==> |g| == 6 && forall i :: 0 <= i < 6 ==> LowerChar(g[i]) == "female"[i]
  {
    ToLowerIs(g, "female");
  }

  /** The slots that copy a field depend on that field alone and hold it unchanged. */
  lemma NumericFieldsCopied(data: LoanInput)
    ensures Encode(data)[1] == data.personAge as real
    ensures Encode(data)[5] == data.personEmpExp as real
    ensures Encode(data)[6] == data.personIncome
    ensures Encode(data)[8] == data.creditScore as real
    ensures Encode(data)[10] == data.loanAmnt
    ensures Decode(Encode(data)).personAge == data.personAge
    ensures Decode(Encode(data)).personEmpExp == data.personEmpExp
    ensures Decode(Encode(data)).personIncome == data.personIncome
    ensures Decode(Encode(data)).creditScore == data.creditScore
    ensures Decode(Encode(data)).loanAmnt == data.loanAmnt
  {
    DecodeEncode(data);
  }

  /** Case variants of a gender, and near misses of the exact-match tables. */
  lemma LookupExamples()
    ensures GenderCode("Male") == 0 && GenderCode("MALE") == 0 && GenderCode("male") == 0
    ensures GenderCode("Female") == 1 && GenderCode("FEMALE") == 1
    ensures EducationCode("bachelor") == 0 && EducationCode("Bachelor") == 1
    ensures LoanIntentCode("UNKNOWN_VALUE") == LoanIntentCode("PERSONAL") == 0
    ensures HomeOwnershipCode("own") == 0 && DefaultsCode("yes") == 0
  {
    ToLowerIs("Male", "male");
    ToLowerIs("MALE", "male");
    ToLowerIs("male", "male");
    ToLowerIs("Female", "female");
    ToLowerIs("FEMALE", "female");
  }

  /** The sample applicant encodes to the vector the handler builds for it. */
  lemma SampleApplicant()
    ensures Encode(LoanInput("female", 30, "Master", 5, 60000.0, "OWN", 720, "NO", 10000.0, "EDUCATION"))
         == [1.0, 30.0, 0.0, 2.0, 0.0, 5.0, 60000.0, 1.0, 720.0, 0.0, 10000.0, 1.0]
  {
    ToLowerIs("female", "female");
  }
}
