/**
 * The scenarios of the attribute test module, replayed on the model: each
 * method builds the descriptor and the host the test builds, performs the
 * same reads and writes, and promises in its postcondition what the test
 * asserts.
 */
module AttributeTests {
  import opened Wrappers
  import opened Decimals
  import opened PyValues
  import opened Host
  import opened Applicability
  import opened Attributes

  lemma TestInResource()
    ensures InResource(IntfInstNameResources, None)
    ensures InResource(AsrlBaudResources, Some((Asrl, "INSTR")))
    ensures !InResource(AsrlBaudResources, None)
  {
  }

  method TestAttribute()
    returns (first: Result<Value, Error>, second: Result<Value, Error>,
             getAfterRename: Result<Value, Error>, setAfterRename: Outcome<Error>,
             unreadable: Result<Value, Error>, unwritable: Outcome<Error>, unwritableStored: Value)
    ensures first == Success(Int(1)) && second == Success(Int(2))
    ensures getAfterRename == Failure(HostError) && setAfterRename == Fail(HostError)
    ensures unreadable == Failure(CantRead)
    ensures unwritable == Fail(CantWrite) && unwritableStored == Int(1)
  {
    var d := MakeDescriptor("attr_id", Attribute, true, true);
    var r := new FakeResource("attr_id", Int(1));
    first := Get(d, r);
    var _ := Set(d, r, Int(2));
    second := Get(d, r);
    // the host no longer holds the descriptor's id
    r.attrId := "dummy";
    getAfterRename := Get(d, r);
    setAfterRename := Set(d, r, Int(2));

    var noRead := MakeDescriptor("attr_id", Attribute, false, true);
    var r2 := new FakeResource("attr_id", Int(1));
    unreadable := Get(noRead, r2);

    var noWrite := MakeDescriptor("attr_id", Attribute, true, false);
    var r3 := new FakeResource("attr_id", Int(1));
    unwritable := Set(noWrite, r3, Int(1));
    unwritableStored := r3.attrValue;
  }

  method TestBooleanAttribute()
    returns (first: Result<Value, Error>, second: Result<Value, Error>, stored: Value)
    ensures first == Success(Bool(true)) && second == Success(Bool(false))
    ensures stored == Int(VI_FALSE)
  {
    var d := MakeDescriptor("attr_id", BooleanAttribute, true, true);
    var r := new FakeResource("attr_id", Int(VI_TRUE));
    first := Get(d, r);
    var _ := Set(d, r, Bool(false));
    second := Get(d, r);
    stored := r.attrValue;
  }

  method TestCharAttribute()
    returns (first: Result<Value, Error>, second: Result<Value, Error>, stored: Value)
    ensures first == Success(Text("\n")) && second == Success(Text("\r"))
    ensures stored == Int(13)
  {
    var d := MakeDescriptor("attr_id", CharAttribute, true, true);
    var r := new FakeResource("attr_id", Int('\n' as int));
    first := Get(d, r);
    var _ := Set(d, r, Text("\r"));
    second := Get(d, r);
    stored := r.attrValue;
  }

  method TestEnumAttribute()
    returns (first: Result<Value, Error>, second: Result<Value, Error>, stored: Value,
             notMember: Outcome<Error>)
    ensures first == Success(Member(EnumMember("a", 1)))
    ensures second == Success(Member(EnumMember("b", 2)))
    ensures stored == Int(2)
    ensures notMember.Fail? && notMember.error.ValueError? && Contains(notMember.error.msg, "invalid value")
  {
    var a, b := EnumMember("a", 1), EnumMember("b", 2);
    var e := EnumType([a, b]);
    var d := MakeDescriptor("attr_id", EnumAttribute(e), true, true);
    var r := new FakeResource("attr_id", Int(1));
    first := Get(d, r);
    var _ := Set(d, r, Member(b));
    second := Get(d, r);
    stored := r.attrValue;
    notMember := Set(d, r, Int(3));
    EnumRejectionSaysInvalid(d.kind, Int(3));
  }

  method TestIntAttribute() returns (first: Result<Value, Error>)
    ensures first == Success(Int(1))
  {
    var d := MakeDescriptor("attr_id", IntAttribute, true, true);
    var r := new FakeResource("attr_id", Text("1"));
    first := Get(d, r);
  }

  /** The rejection says "invalid value", and says " or " exactly when `withOr`. */
  predicate RejectedSaying(o: Outcome<Error>, withOr: bool) {
    o.Fail? && o.error.ValueError? && Contains(o.error.msg, "invalid value")
      && (Contains(o.error.msg, " or ") <==> withOr)
  }

  method TestRangeAttribute()
    returns (stored0: Value, stored2: Value, stored1: Value,
             belowMin: Outcome<Error>, aboveMax: Outcome<Error>,
             stored10: Value, notListed: Outcome<Error>)
    ensures stored0 == Int(0) && stored2 == Int(2) && stored1 == Int(1)
    ensures RejectedSaying(belowMin, false) && RejectedSaying(aboveMax, false)
    ensures stored10 == Int(10)
    ensures RejectedSaying(notListed, true)
  {
    var d := MakeDescriptor("attr_id", RangeAttribute(0, 2, []), true, true);
    var r := new FakeResource("attr_id", Int(1));
    var o := Set(d, r, Int(0));
    stored0 := r.attrValue;
    o := Set(d, r, Int(2));
    stored2 := r.attrValue;
    o := Set(d, r, Int(1));
    stored1 := r.attrValue;
    belowMin := Set(d, r, Int(-1));
    RangeRejection(d, HostState("attr_id", Int(1)), -1);
    aboveMax := Set(d, r, Int(3));
    RangeRejection(d, HostState("attr_id", Int(1)), 3);

    var dv := MakeDescriptor("attr_id", RangeAttribute(0, 2, [10]), true, true);
    var rv := new FakeResource("attr_id", Int(1));
    o := Set(dv, rv, Int(10));
    stored10 := rv.attrValue;
    notListed := Set(dv, rv, Int(3));
    RangeRejection(dv, HostState("attr_id", Int(10)), 3);
  }

  method TestValuesAttribute() returns (stored10: Value, notListed: Outcome<Error>)
    ensures stored10 == Int(10)
    ensures notListed.Fail? && notListed.error.ValueError? && Contains(notListed.error.msg, "invalid value")
  {
    var d := MakeDescriptor("attr_id", ValuesAttribute([10, 20]), true, true);
    var r := new FakeResource("attr_id", Int(1));
    var _ := Set(d, r, Int(10));
    stored10 := r.attrValue;
    notListed := Set(d, r, Int(3));
    ValidatedRoundTrip(d, HostState("attr_id", Int(10)), Int(3));
  }
}
