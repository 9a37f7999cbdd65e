/** `Attribute::fill` (src/lib/apiTypesV2/Attribute.cpp): turning the answer
    to a query for one entity into the single attribute asked for, or into
    the error that explains why there is none. An attribute is identified
    by its position in the first element's attribute list, where the C++
    code keeps a pointer into that vector. */
module AttributeFill {
  import opened Options

  /** HTTP status codes of the broker's `HttpStatusCode` enumeration. */
  const SccOk := 200
  const SccContextElementNotFound := 404
  const SccConflict := 409

  /** Error names and descriptions (common/errorMessages.h). */
  const ErrorNotFound := "NotFound"
  const ErrorTooMany := "TooManyResults"
  const ErrorDescNotFoundEntity := "The requested entity has not been found. Check type and id"
  const ErrorDescNotFoundAttribute := "The entity does not have such an attribute"
  const ErrorDescTooManyEntities := "More than one matching entity. Please refine your query"

  /** `OrionError`: a status code, a description and a reason phrase, as
      `oe.fill(code, details, reasonPhrase)` sets them. */
  datatype OrionError = OrionError(code: int, details: string, reasonPhrase: string)

  /** One entity of the answer, reduced to the names of its attributes in
      the order of `contextAttributeVector`. */
  datatype ContextElementResponse = ContextElementResponse(attributeNames: seq<string>)

  /** The answer to the query: its error code and its entities. */
  datatype QueryContextResponse = QueryContextResponse(errorCode: OrionError, elements: seq<ContextElementResponse>)

  /** The two fields `fill` may set: the error and the attribute found. */
  datatype Fields = Fields(oe: OrionError, attribute: Option<nat>)

  /** The position of the first attribute called `attrName`, if any. */
  function FirstMatch(names: seq<string>, attrName: string): (r: Option<nat>)
    ensures r.None? <==> attrName !in names
    ensures r.Some? ==> r.value < |names| && names[r.value] == attrName && attrName !in names[..r.value]
  {
    if names == [] then None
    else if names[0] == attrName then Some(0)
    else
      match FirstMatch(names[1..], attrName)
      case None => None
      case Some(i) =>
        assert names[1..][..i] == names[1..i + 1];
        Some(i + 1)
  }

  /** Any position holding the first occurrence is the one `FirstMatch`
      reports. */
  lemma FirstMatchAt(names: seq<string>, attrName: string, k: nat)
    requires k < |names| && names[k] == attrName && attrName !in names[..k]
    ensures FirstMatch(names, attrName) == Some(k)
  {
  }

  /** Attributes after a match never change the result: later homonyms are
      ignored. */
  lemma {:induction false} FirstMatchIgnoresLater(names: seq<string>, more: seq<string>, attrName: string)
    requires attrName in names
    ensures FirstMatch(names + more, attrName) == FirstMatch(names, attrName)
  {
    if names[0] != attrName {
      assert (names + more)[1..] == names[1..] + more;
      FirstMatchIgnoresLater(names[1..], more, attrName);
    }
  }

  /** The fields after `fill(q, attrName)` from fields `before`: a missing
      entity, any other error and an ambiguous answer are checked in that
      order and each replaces only the error; otherwise the attribute is
      searched for in the first entity, and only its absence sets an
      error. */
  function Filled(before: Fields, q: QueryContextResponse, attrName: string): (r: Fields)
    requires !(q.errorCode.code == SccOk && q.elements == [])
    ensures q.errorCode.code == SccContextElementNotFound ==>
      r == Fields(OrionError(SccContextElementNotFound, ErrorDescNotFoundEntity, ErrorNotFound), before.attribute)
    ensures q.errorCode.code != SccContextElementNotFound && q.errorCode.code != SccOk ==>
      r == Fields(q.errorCode, before.attribute)
    ensures q.errorCode.code == SccOk && |q.elements| > 1 ==>
      r == Fields(OrionError(SccConflict, ErrorDescTooManyEntities, ErrorTooMany), before.attribute)
    ensures q.errorCode.code == SccOk && |q.elements| == 1 ==>
      var names := q.elements[0].attributeNames;
      && (r.attribute.Some? <==> attrName in names)
      && (r.attribute.Some? ==> r.attribute.value < |names| && names[r.attribute.value] == attrName
                                && attrName !in names[..r.attribute.value] && r.oe == before.oe)
      && (r.attribute.None? ==>
            r.oe == OrionError(SccContextElementNotFound, ErrorDescNotFoundAttribute, ErrorNotFound))
  {
    if q.errorCode.code == SccContextElementNotFound then
      Fields(OrionError(SccContextElementNotFound, ErrorDescNotFoundEntity, ErrorNotFound), before.attribute)
    else if q.errorCode.code != SccOk then
      Fields(q.errorCode, before.attribute)
    else if |q.elements| > 1 then
      Fields(OrionError(SccConflict, ErrorDescTooManyEntities, ErrorTooMany), before.attribute)
    else
      var found := FirstMatch(q.elements[0].attributeNames, attrName);
      if found.None? then
        Fields(OrionError(SccContextElementNotFound, ErrorDescNotFoundAttribute, ErrorNotFound), None)
      else
        Fields(before.oe, found)
  }

  /** Only a successful answer with exactly one entity leads to a search;
      in every other case the attribute keeps its old value. */
  lemma SearchOnlyForOneEntity(before: Fields, q: QueryContextResponse, attrName: string)
    requires !(q.errorCode.code == SccOk && q.elements == [])
    ensures Filled(before, q, attrName).attribute != before.attribute ==>
      q.errorCode.code == SccOk && |q.elements| == 1
  {
  }

  /** When the answer carries an error, its entities are never looked at. */
  lemma ErrorIgnoresElements(before: Fields, q: QueryContextResponse, attrName: string,
                             others: seq<ContextElementResponse>)
    requires q.errorCode.code != SccOk
    ensures Filled(before, q, attrName) == Filled(before, q.(elements := others), attrName)
  {
  }

  /** The attribute found does not depend on the fields before the call. */
  lemma FoundIndependentOfBefore(b1: Fields, b2: Fields, q: QueryContextResponse, attrName: string)
    requires q.errorCode.code == SccOk && |q.elements| == 1
    ensures Filled(b1, q, attrName).attribute == Filled(b2, q, attrName).attribute
  {
  }

  /** The object whose `fill` method is modelled: its error `oe` and the
      attribute it points to, `pcontextAttribute` (NULL is `None`). */
  class Attribute {
    var oe: OrionError
    var pcontextAttribute: Option<nat>

    constructor (oe: OrionError, pcontextAttribute: Option<nat>)
      ensures this.oe == oe && this.pcontextAttribute == pcontextAttribute
    {
      this.oe := oe;
      this.pcontextAttribute := pcontextAttribute;
    }

    /** The current fields. */
    function Current(): Fields
      reads this
    {
      Fields(oe, pcontextAttribute)
    }

    /** `Attribute::fill(qcrsP, attrName)`. The C++ code reads
        `contextElementResponseVector[0]` whenever the code is OK and there
        is at most one element, so callers must not pass an OK answer
        without entities. */
    method Fill(q: QueryContextResponse, attrName: string)
      requires !(q.errorCode.code == SccOk && q.elements == [])
      modifies this
      ensures Current() == Filled(old(Current()), q, attrName)
    {
      if q.errorCode.code == SccContextElementNotFound {
        oe := OrionError(SccContextElementNotFound, ErrorDescNotFoundEntity, ErrorNotFound);
      } else if q.errorCode.code != SccOk {
        oe := OrionError(q.errorCode.code, q.errorCode.details, q.errorCode.reasonPhrase);
      } else if |q.elements| > 1 {
        oe := OrionError(SccConflict, ErrorDescTooManyEntities, ErrorTooMany);
      } else {
        pcontextAttribute := None;
        var cer := q.elements[0];
        var i := 0;
        while i < |cer.attributeNames|
          invariant 0 <= i <= |cer.attributeNames|
          invariant pcontextAttribute == None && attrName !in cer.attributeNames[..i]
          invariant oe == old(oe)
        {
          if cer.attributeNames[i] == attrName {
            pcontextAttribute := Some(i);
            break;
          }
          i := i + 1;
        }
        if pcontextAttribute.Some? {
          FirstMatchAt(cer.attributeNames, attrName, i);
        } else {
          assert cer.attributeNames[..i] == cer.attributeNames;
        }
        if pcontextAttribute == None {
          oe := OrionError(SccContextElementNotFound, ErrorDescNotFoundAttribute, ErrorNotFound);
        }
      }
    }
  }
}
