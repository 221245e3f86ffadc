/**
 * Typed attribute descriptors. A descriptor is a static configuration (an
 * attribute id, whether it may be read and written, and its kind); reading
 * it asks the host for the raw value and decodes it, writing it encodes and
 * validates the value and hands the result to the host.
 */
module Attributes {
  import opened Wrappers
  import opened Decimals
  import opened PyValues
  import opened Host
  import opened Applicability

  /** The VISA sentinels for true and false. */
  const VI_TRUE: int := 1
  const VI_FALSE: int := 0

  const CantRead: Error := AttributeError("can't read attribute")
  const CantWrite: Error := AttributeError("can't write attribute")

  /** An `enum.IntEnum` class, its members in declaration order. */
  datatype EnumType = EnumType(members: seq<EnumMember>) {
    /** `@enum.unique`: no two members share a value. */
    predicate Unique() {
      forall i, j :: 0 <= i < j < |members| ==> members[i].value != members[j].value
    }
  }

  /**
   * An enumeration as Python builds one: a value has a single member, since
   * an alias is the canonical member object itself.
   */
  type UniqueEnum = e: EnumType | e.Unique() witness EnumType([])

  /** The descriptor classes and the configuration each of them adds. */
  datatype Kind =
    | Attribute
    | BooleanAttribute
    | CharAttribute
    | EnumAttribute(enumType: UniqueEnum)
    | IntAttribute
    | RangeAttribute(minValue: int, maxValue: int, values: seq<int>)
    | ValuesAttribute(values: seq<int>)

  datatype Descriptor = Descriptor(
    attributeId: string,
    read: bool,
    write: bool,
    kind: Kind,
    resources: Resources)

  /**
   * A descriptor class as the tests build one: the id, the permissions and
   * the kind. That such a class applies to every resource is this model's
   * own choice.
   */
  function MakeDescriptor(attributeId: string, kind: Kind, read: bool, write: bool): (d: Descriptor)
    ensures d.attributeId == attributeId && d.kind == kind && d.read == read && d.write == write
    ensures forall q :: InResource(d.resources, q)
  {
    Descriptor(attributeId, read, write, kind, AllSessionTypes)
  }

  /** Code points a `char` can hold (Unicode scalar values). */
  predicate IsCodePoint(n: int) {
    0 <= n < 0xD800 || 0xE000 <= n < 0x11_0000
  }

  /** A member of `members` whose value is `k`, if there is one. */
  function Lookup(members: seq<EnumMember>, k: int): (r: Option<EnumMember>)
    ensures r.Some? ==> r.value in members && r.value.value == k
    ensures r.None? ==> forall m :: m in members ==> m.value != k
  {
    if |members| == 0 then None
    else if members[0].value == k then Some(members[0])
    else Lookup(members[1..], k)
  }

  /** In a `@enum.unique` enum, a member's value identifies that member. */
  lemma LookupUnique(members: seq<EnumMember>, m: EnumMember)
    requires EnumType(members).Unique()
    requires m in members
    ensures Lookup(members, m.value) == Some(m)
  {
  }

  function JoinDecimals(xs: seq<int>): string {
    if |xs| == 0 then ""
    else if |xs| == 1 then Decimal(xs[0])
    else Decimal(xs[0]) + ", " + JoinDecimals(xs[1..])
  }

  /** Python's `repr` of a list of integers, such as "[10, 20]". */
  function ListRepr(xs: seq<int>): string {
    "[" + JoinDecimals(xs) + "]"
  }

  function InvalidValue(shown: string, expected: string): string {
    shown + " is an " + "invalid value" + ", should be " + expected
  }

  /** What a range attribute says it accepts; the allow-list is joined with " or ". */
  function RangeExpectation(minValue: int, maxValue: int, values: seq<int>): string {
    "between " + Decimal(minValue) + " and " + Decimal(maxValue)
      + (if values == [] then "" else " or " + ListRepr(values))
  }

  function RangeMessage(n: int, minValue: int, maxValue: int, values: seq<int>): string {
    InvalidValue(Decimal(n), RangeExpectation(minValue, maxValue, values))
  }

  /** Every message built by `InvalidValue` says "invalid value". */
  lemma InvalidValueSaysSo(shown: string, expected: string)
    ensures Contains(InvalidValue(shown, expected), "invalid value")
  {
    var s := InvalidValue(shown, expected);
    var i := |shown + " is an "|;
    assert s[i..i + 13] == "invalid value";
    assert OccursAt(s, "invalid value", i);
  }

  /** What an enumeration attribute says it accepts. */
  const NotAMember: string := "a member of the enumeration"

  /** A range rejection mentions " or " exactly when an allow-list is configured. */
  lemma RangeMessageOr(n: int, minValue: int, maxValue: int, values: seq<int>)
    ensures Contains(RangeMessage(n, minValue, maxValue, values), " or ") <==> values != []
  {
    var d, lo, hi := Decimal(n), Decimal(minValue), Decimal(maxValue);
    var head := "between " + lo + " and " + hi;
    var prefix := d + " is an " + "invalid value" + ", should be ";
    var s := RangeMessage(n, minValue, maxValue, values);
    if values == [] {
      assert s == prefix + "between " + lo + " and " + hi;
      DecimalNoBlankO(n);
      DecimalNoBlankO(minValue);
      DecimalNoBlankO(maxValue);
      NoBlankOConcat(d, " is an ");
      NoBlankOConcat(d + " is an ", "invalid value");
      NoBlankOConcat(d + " is an " + "invalid value", ", should be ");
      NoBlankOConcat(prefix, "between ");
      NoBlankOConcat(prefix + "between ", lo);
      NoBlankOConcat(prefix + "between " + lo, " and ");
      NoBlankOConcat(prefix + "between " + lo + " and ", hi);
      NoBlankOExcludesOr(s);
    } else {
      var i := |prefix| + |head|;
      assert s == prefix + head + " or " + ListRepr(values);
      assert s[i..i + 4] == " or ";
      assert OccursAt(s, " or ", i);
    }
  }

  /** The decoding step (`post_get`) of each kind, from the raw host value. */
  function PostGet(k: Kind, raw: Value): (r: Result<Value, Error>)
    ensures k.Attribute? || k.RangeAttribute? || k.ValuesAttribute? ==> r == Success(raw)
    ensures k.BooleanAttribute? ==> r == Success(Bool(AsInt(raw) == Some(VI_TRUE)))
    ensures k.CharAttribute? ==> (r.Success? <==> AsInt(raw).Some? && IsCodePoint(AsInt(raw).value))
    ensures k.CharAttribute? && r.Success? ==> r.value.Text? && |r.value.s| == 1 && r.value.s[0] as int == AsInt(raw).value
    ensures k.EnumAttribute? ==> (r.Success? <==> exists m :: m in k.enumType.members && AsInt(raw) == Some(m.value))
    ensures k.EnumAttribute? && r.Success? ==>
      r.value.Member? && r.value.member in k.enumType.members && AsInt(raw) == Some(r.value.member.value)
    ensures k.EnumAttribute? && r.Failure? ==> r.error == ValueError(InvalidValue(Repr(raw), NotAMember))
    ensures k.IntAttribute? && !raw.Text? ==> r == Success(Int(AsInt(raw).value))
    ensures k.IntAttribute? && raw.Text? ==> (r.Success? <==> ParseInt(raw.s).Some?)
    ensures k.IntAttribute? && raw.Text? && r.Success? ==> r.value == Int(ParseInt(raw.s).value)
    ensures k.IntAttribute? && r.Failure? ==> r.error.ValueError?
    ensures k.CharAttribute? && raw.Text? ==> r.Failure? && r.error.TypeError?
    ensures k.CharAttribute? && AsInt(raw).Some? && !IsCodePoint(AsInt(raw).value) ==>
      r.Failure? && r.error.ValueError?
  {
    match k
    case Attribute => Success(raw)
    case RangeAttribute(_, _, _) => Success(raw)
    case ValuesAttribute(_) => Success(raw)
    case BooleanAttribute => Success(Bool(AsInt(raw) == Some(VI_TRUE)))
    case CharAttribute =>
      (match AsInt(raw)
       case None => Failure(TypeError("an integer is required"))
       case Some(n) =>
         if IsCodePoint(n) then Success(Text([n as char]))
         else Failure(ValueError("chr() arg not in range(0x110000)")))
    case EnumAttribute(e) =>
      (match AsInt(raw)
       case None => Failure(ValueError(InvalidValue(Repr(raw), NotAMember)))
       case Some(n) =>
         match Lookup(e.members, n)
         case None => Failure(ValueError(InvalidValue(Repr(raw), NotAMember)))
         case Some(m) => Success(Member(m)))
    case IntAttribute =>
      (match raw
       case Text(s) =>
         (match ParseInt(s)
          case Some(n) => Success(Int(n))
          case None => Failure(ValueError("invalid literal for int() with base 10: " + Repr(raw))))
       case _ => Success(Int(AsInt(raw).value)))
  }

  /** The encoding and validation step (`pre_set`) of each kind, giving the raw value to store. */
  function PreSet(k: Kind, v: Value): (r: Result<Value, Error>)
    ensures k.Attribute? || k.IntAttribute? ==> r == Success(v)
    ensures k.BooleanAttribute? ==> r == Success(Int(if Truthy(v) then VI_TRUE else VI_FALSE))
    ensures k.CharAttribute? ==> (r.Success? <==> v.Text? && |v.s| == 1)
    ensures k.CharAttribute? && r.Success? ==> r.value == Int(v.s[0] as int)
    ensures k.CharAttribute? && r.Failure? ==> r.error.TypeError?
    ensures k.EnumAttribute? ==> (r.Success? <==> exists m :: m in k.enumType.members && AsInt(v) == Some(m.value))
    ensures k.EnumAttribute? && r.Success? ==> r.value == Int(AsInt(v).value)
    ensures k.EnumAttribute? && r.Failure? ==> r.error == ValueError(InvalidValue(Repr(v), NotAMember))
    ensures k.RangeAttribute? ==>
      (r.Success? <==> (AsInt(v).Some? && (k.minValue <= AsInt(v).value <= k.maxValue || AsInt(v).value in k.values)))
    ensures k.RangeAttribute? && AsInt(v).None? ==> r.Failure? && r.error.TypeError?
    ensures k.RangeAttribute? && AsInt(v).Some? && r.Failure? ==>
      r.error == ValueError(RangeMessage(AsInt(v).value, k.minValue, k.maxValue, k.values))
    ensures k.ValuesAttribute? ==> (r.Success? <==> AsInt(v).Some? && AsInt(v).value in k.values)
    ensures k.ValuesAttribute? && r.Failure? ==> r.error == ValueError(InvalidValue(Repr(v), ListRepr(k.values)))
    ensures (k.RangeAttribute? || k.ValuesAttribute?) && r.Success? ==> r.value == v
  {
    match k
    case Attribute => Success(v)
    case IntAttribute => Success(v)
    case BooleanAttribute => Success(Int(if Truthy(v) then VI_TRUE else VI_FALSE))
    case CharAttribute =>
      if v.Text? && |v.s| == 1 then Success(Int(v.s[0] as int))
      else Failure(TypeError("ord() expected a character"))
    case EnumAttribute(e) =>
      (match AsInt(v)
       case Some(n) =>
         if Lookup(e.members, n).Some? then Success(Int(n))
         else Failure(ValueError(InvalidValue(Repr(v), NotAMember)))
       case None => Failure(ValueError(InvalidValue(Repr(v), NotAMember))))
    case RangeAttribute(lo, hi, values) =>
      (match AsInt(v)
       case None => Failure(TypeError("'<=' not supported between int and str"))
       case Some(n) =>
         if lo <= n <= hi || n in values then Success(v)
         else Failure(ValueError(RangeMessage(n, lo, hi, values))))
    case ValuesAttribute(values) =>
      if AsInt(v).Some? && AsInt(v).value in values then Success(v)
      else Failure(ValueError(InvalidValue(Repr(v), ListRepr(values))))
  }

  /** Reading the attribute through the descriptor (`__get__`). */
  function AttrGet(d: Descriptor, h: HostState): (r: Result<Value, Error>)
    ensures !d.read ==> r == Failure(CantRead)
    ensures d.read && h.attrId != d.attributeId ==> r == Failure(HostError)
    ensures d.read && h.attrId == d.attributeId ==> r == PostGet(d.kind, h.attrValue)
  {
    if !d.read then Failure(CantRead)
    else
      match HostGet(h, d.attributeId)
      case Failure(e) => Failure(e)
      case Success(raw) => PostGet(d.kind, raw)
  }

  /**
   * Writing the attribute through the descriptor (`__set__`): the new host
   * state, or the error. Validation happens before the host is asked.
   */
  function AttrSet(d: Descriptor, h: HostState, v: Value): (r: Result<HostState, Error>)
    ensures !d.write ==> r == Failure(CantWrite)
    ensures d.write && PreSet(d.kind, v).Failure? ==> r == Failure(PreSet(d.kind, v).error)
    ensures d.write && PreSet(d.kind, v).Success? && h.attrId != d.attributeId ==> r == Failure(HostError)
    ensures r.Success? <==> d.write && PreSet(d.kind, v).Success? && h.attrId == d.attributeId
    ensures r.Success? ==> r.value == HostState(h.attrId, PreSet(d.kind, v).value)
  {
    if !d.write then Failure(CantWrite)
    else
      match PreSet(d.kind, v)
      case Failure(e) => Failure(e)
      case Success(raw) => HostSet(h, d.attributeId, raw)
  }

  method Get(d: Descriptor, host: FakeResource) returns (r: Result<Value, Error>)
    ensures r == AttrGet(d, host.State())
  {
    if !d.read {
      return Failure(CantRead);
    }
    var raw := host.GetVisaAttribute(d.attributeId);
    match raw
    case Failure(e) => r := Failure(e);
    case Success(x) => r := PostGet(d.kind, x);
  }

  method Set(d: Descriptor, host: FakeResource, v: Value) returns (r: Outcome<Error>)
    modifies host
    ensures AttrSet(d, old(host.State()), v).Success? ==>
      r == Pass && host.State() == AttrSet(d, old(host.State()), v).value
    ensures AttrSet(d, old(host.State()), v).Failure? ==>
      r == Fail(AttrSet(d, old(host.State()), v).error) && host.State() == old(host.State())
  {
    if !d.write {
      return Fail(CantWrite);
    }
    var raw := PreSet(d.kind, v);
    match raw
    case Failure(e) => r := Fail(e);
    case Success(x) => r := host.SetVisaAttribute(d.attributeId, x);
  }

  /** The descriptor may be read and written, and the host holds its id. */
  predicate Attached(d: Descriptor, h: HostState) {
    d.read && d.write && h.attrId == d.attributeId
  }

  /** A plain attribute stores what it is given and reads it back unchanged. */
  lemma PlainRoundTrip(d: Descriptor, h: HostState, v: Value)
    requires Attached(d, h) && d.kind.Attribute?
    ensures AttrSet(d, h, v) == Success(HostState(h.attrId, v))
    ensures AttrGet(d, AttrSet(d, h, v).value) == Success(v)
  {
  }

  /** A boolean attribute stores exactly one of the sentinels and reads back the truth value. */
  lemma BooleanRoundTrip(d: Descriptor, h: HostState, v: Value)
    requires Attached(d, h) && d.kind.BooleanAttribute?
    ensures AttrSet(d, h, v) == Success(HostState(h.attrId, Int(if Truthy(v) then VI_TRUE else VI_FALSE)))
    ensures AttrGet(d, AttrSet(d, h, v).value) == Success(Bool(Truthy(v)))
  {
  }

  /** A character attribute stores the code point and decodes it back to the character. */
  lemma CharRoundTrip(d: Descriptor, h: HostState, c: char)
    requires Attached(d, h) && d.kind.CharAttribute?
    ensures AttrSet(d, h, Text([c])) == Success(HostState(h.attrId, Int(c as int)))
    ensures AttrGet(d, AttrSet(d, h, Text([c])).value) == Success(Text([c]))
  {
  }

  /**
   * An enumeration attribute given a member, or any value equal to one,
   * stores the member's integer value and reads back that member.
   */
  lemma EnumRoundTrip(d: Descriptor, h: HostState, v: Value, m: EnumMember)
    requires Attached(d, h) && d.kind.EnumAttribute?
    requires m in d.kind.enumType.members && AsInt(v) == Some(m.value)
    ensures AttrSet(d, h, v) == Success(HostState(h.attrId, Int(m.value)))
    ensures AttrGet(d, AttrSet(d, h, v).value) == Success(Member(m))
  {
    LookupUnique(d.kind.enumType.members, m);
  }

  /** Both enumeration rejections, on reading and on writing, say "invalid value". */
  lemma EnumRejectionSaysInvalid(k: Kind, v: Value)
    requires k.EnumAttribute?
    ensures PostGet(k, v).Failure? ==> Contains(PostGet(k, v).error.msg, "invalid value")
    ensures PreSet(k, v).Failure? ==> Contains(PreSet(k, v).error.msg, "invalid value")
  {
    InvalidValueSaysSo(Repr(v), NotAMember);
  }

  /** An integer attribute decodes the decimal text of any integer to that integer. */
  lemma IntDecodesDecimal(d: Descriptor, h: HostState, n: int)
    requires d.read && d.kind.IntAttribute? && h == HostState(d.attributeId, Text(Decimal(n)))
    ensures AttrGet(d, h) == Success(Int(n))
  {
    ParseDecimal(n);
  }

  lemma IntRoundTrip(d: Descriptor, h: HostState, n: int)
    requires Attached(d, h) && d.kind.IntAttribute?
    ensures AttrSet(d, h, Int(n)) == Success(HostState(h.attrId, Int(n)))
    ensures AttrGet(d, AttrSet(d, h, Int(n)).value) == Success(Int(n))
  {
  }

  /**
   * A range or values attribute stores an accepted value unchanged and reads
   * it back; a rejected value leaves an error that says "invalid value".
   */
  lemma ValidatedRoundTrip(d: Descriptor, h: HostState, v: Value)
    requires Attached(d, h) && (d.kind.RangeAttribute? || d.kind.ValuesAttribute?) && AsInt(v).Some?
    ensures PreSet(d.kind, v).Success? ==>
      AttrSet(d, h, v) == Success(HostState(h.attrId, v)) &&
      AttrGet(d, AttrSet(d, h, v).value) == Success(v)
    ensures PreSet(d.kind, v).Failure? ==>
      AttrSet(d, h, v).Failure? && AttrSet(d, h, v).error.ValueError? &&
      Contains(AttrSet(d, h, v).error.msg, "invalid value")
  {
    if PreSet(d.kind, v).Failure? {
      if d.kind.RangeAttribute? {
        var k := d.kind;
        InvalidValueSaysSo(Decimal(AsInt(v).value), RangeExpectation(k.minValue, k.maxValue, k.values));
      } else {
        InvalidValueSaysSo(Repr(v), ListRepr(d.kind.values));
      }
    }
  }

  /** A range rejection says " or " exactly when the allow-list is non-empty. */
  lemma RangeRejection(d: Descriptor, h: HostState, n: int)
    requires d.write && d.kind.RangeAttribute?
    requires !(d.kind.minValue <= n <= d.kind.maxValue) && n !in d.kind.values
    ensures AttrSet(d, h, Int(n)).Failure?
    ensures Contains(AttrSet(d, h, Int(n)).error.msg, "invalid value")
    ensures Contains(AttrSet(d, h, Int(n)).error.msg, " or ") <==> d.kind.values != []
  {
    var k := d.kind;
    InvalidValueSaysSo(Decimal(n), RangeExpectation(k.minValue, k.maxValue, k.values));
    RangeMessageOr(n, k.minValue, k.maxValue, k.values);
  }
}
