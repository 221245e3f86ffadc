/**
 * The host resource of the attribute tests: an object that stores a single
 * attribute, an id and a value, and reads or writes it by id.
 */
module Host {
  import opened Wrappers
  import opened PyValues

  /** What `FakeResource` raises for an id it does not hold (`ValueError()`). */
  const HostError: Error := ValueError("")

  /** The abstract state of a `FakeResource`. */
  datatype HostState = HostState(attrId: string, attrValue: Value)

  /** Reading attribute `id`: the stored value exactly when `id` is the stored id. */
  function HostGet(h: HostState, id: string): (r: Result<Value, Error>)
    ensures r.Success? <==> id == h.attrId
    ensures r.Success? ==> r.value == h.attrValue
    ensures r.Failure? ==> r.error == HostError
  {
    if id == h.attrId then Success(h.attrValue) else Failure(HostError)
  }

  /**
   * Writing attribute `id`: exactly when `id` is the stored id, the value is
   * replaced and the id is kept.
   */
  function HostSet(h: HostState, id: string, v: Value): (r: Result<HostState, Error>)
    ensures r.Success? <==> id == h.attrId
    ensures r.Success? ==> r.value.attrId == h.attrId && r.value.attrValue == v
    ensures r.Failure? ==> r.error == HostError
  {
    if id == h.attrId then Success(HostState(h.attrId, v)) else Failure(HostError)
  }

  lemma SetThenGet(h: HostState, v: Value)
    ensures HostSet(h, h.attrId, v).Success?
    ensures HostGet(HostSet(h, h.attrId, v).value, h.attrId) == Success(v)
  {
  }

  class FakeResource {
    var attrId: string
    var attrValue: Value

    function State(): HostState
      reads this
    {
      HostState(attrId, attrValue)
    }

    constructor (attrId: string, attrValue: Value)
      ensures State() == HostState(attrId, attrValue)
    {
      this.attrId := attrId;
      this.attrValue := attrValue;
    }

    method GetVisaAttribute(id: string) returns (r: Result<Value, Error>)
      ensures r == HostGet(State(), id)
    {
      if id == attrId {
        r := Success(attrValue);
      } else {
        r := Failure(HostError);
      }
    }

    method SetVisaAttribute(id: string, value: Value) returns (r: Outcome<Error>)
      modifies this
      ensures HostSet(old(State()), id, value).Success? ==>
        r == Pass && State() == HostSet(old(State()), id, value).value
      ensures HostSet(old(State()), id, value).Failure? ==>
        r == Fail(HostError) && State() == old(State())
    {
      if id == attrId {
        attrValue := value;
        r := Pass;
      } else {
        r := Fail(HostError);
      }
    }
  }
}
