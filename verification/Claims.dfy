/** The three claim entries of the caller-facing message and the
    converters that build them from coronaqr's records (src/main.go and
    main.go declare identical copies of these types and functions). */
module Claims {
  import opened Coronaqr

  datatype Vaccine = Vaccine(
    target: string,
    vaccine: string,
    product: string,
    manufacturer: string,
    doses: Float64,
    doseSeries: Float64,
    date: string,
    country: string,
    issuer: string,
    certificateID: string)

  datatype Test = Test(
    target: string,
    testType: string,
    name: string,
    manufacturer: string,
    sampleDatetime: string,
    testResult: string,
    testingCentre: string,
    country: string,
    issuer: string,
    certificateID: string)

  datatype Recovery = Recovery(
    target: string,
    country: string,
    issuer: string,
    firstPositiveTest: string,
    validFrom: string,
    validUntil: string,
    certificateID: string)

  /** vaccineRecordToVaccine */
  function ToVaccine(record: VaccineRecord): (v: Vaccine)
    ensures v.target == record.target && v.vaccine == record.vaccine
    ensures v.product == record.product && v.manufacturer == record.manufacturer
    ensures v.doses == record.doses && v.doseSeries == record.doseSeries
    ensures v.date == record.date && v.country == record.country
    ensures v.issuer == record.issuer && v.certificateID == record.certificateID
  {
    Vaccine(record.target, record.vaccine, record.product, record.manufacturer, record.doses,
            record.doseSeries, record.date, record.country, record.issuer, record.certificateID)
  }

  /** testRecordToTest */
  function ToTest(record: TestRecord): (t: Test)
    ensures t.target == record.target && t.testType == record.testType
    ensures t.name == record.name && t.manufacturer == record.manufacturer
    ensures t.sampleDatetime == record.sampleDatetime && t.testResult == record.testResult
    ensures t.testingCentre == record.testingCentre && t.country == record.country
    ensures t.issuer == record.issuer && t.certificateID == record.certificateID
  {
    Test(record.target, record.testType, record.name, record.manufacturer, record.sampleDatetime,
         record.testResult, record.testingCentre, record.country, record.issuer, record.certificateID)
  }

  /** recoveryRecordToRecovery */
  function ToRecovery(record: RecoveryRecord): (r: Recovery)
    ensures r.target == record.target && r.country == record.country
    ensures r.issuer == record.issuer && r.firstPositiveTest == record.firstPositiveTest
    ensures r.validFrom == record.validFrom && r.validUntil == record.validUntil
    ensures r.certificateID == record.certificateID
  {
    Recovery(record.target, record.country, record.issuer, record.firstPositiveTest,
             record.validFrom, record.validUntil, record.certificateID)
  }

  /** The converters lose nothing: two records convert to the same entry
      exactly when they are the same record. */
  lemma ConvertersLossless(v1: VaccineRecord, v2: VaccineRecord, t1: TestRecord, t2: TestRecord,
                           r1: RecoveryRecord, r2: RecoveryRecord)
    ensures ToVaccine(v1) == ToVaccine(v2) <==> v1 == v2
    ensures ToTest(t1) == ToTest(t2) <==> t1 == t2
    ensures ToRecovery(r1) == ToRecovery(r2) <==> r1 == r2
  {
  }

  /** The loop `for _, record := range records { list = append(list, convert(record)) }`:
      every record, in order, converted and appended after what `list` held. */
  function AppendEach<A, B>(list: seq<B>, records: seq<A>, convert: A -> B): (r: seq<B>)
    ensures |r| == |list| + |records|
    ensures r[..|list|] == list
    ensures forall i :: 0 <= i < |records| ==> r[|list| + i] == convert(records[i])
    decreases |records|
  {
    if |records| == 0 then list
    else AppendEach(list + [convert(records[0])], records[1..], convert)
  }

  /** Converting a list of records element by element keeps the records
      recoverable: two record lists give the same entries exactly when they
      are equal. */
  lemma {:induction false} AppendEachLossless<A, B>(xs: seq<A>, ys: seq<A>, convert: A -> B)
    requires forall a1, a2 :: convert(a1) == convert(a2) ==> a1 == a2
    ensures AppendEach([], xs, convert) == AppendEach([], ys, convert) <==> xs == ys
  {
    var cx, cy := AppendEach([], xs, convert), AppendEach([], ys, convert);
    if cx == cy {
      assert |xs| == |ys|;
      forall i | 0 <= i < |xs|
        ensures xs[i] == ys[i]
      {
        assert cx[0 + i] == convert(xs[i]);
        assert cy[0 + i] == convert(ys[i]);
      }
    }
  }
}
