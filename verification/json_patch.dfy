/**
 * JSON Patch documents (RFC 6902) restricted to what the tools send: "add"
 * operations with string values, applied to the members of one object.
 */
module JsonPatch {

  /** An RFC 6902 operation; the document only ever uses "add" with a string value. */
  datatype PatchOperation = Add(path: string, value: string)

  type PatchDocument = seq<PatchOperation>

  /** Applies "add" operations to the members of an object (section 4.1 of RFC 6902): each creates or replaces one member. */
  function ApplyPatch(fields: map<string, string>, doc: PatchDocument): (r: map<string, string>)
    decreases |doc|
  {
    if |doc| == 0 then fields
    else ApplyPatch(fields[doc[0].path := doc[0].value], doc[1..])
  }

  /** Applying two documents in turn is applying their concatenation. */
  lemma {:induction false} ApplyPatchAppend(fields: map<string, string>, first: PatchDocument, second: PatchDocument)
    ensures ApplyPatch(fields, first + second) == ApplyPatch(ApplyPatch(fields, first), second)
    decreases |first|
  {
    if |first| > 0 {
      assert (first + second)[1..] == first[1..] + second;
      ApplyPatchAppend(fields[first[0].path := first[0].value], first[1..], second);
    } else {
      assert first + second == second;
    }
  }

  lemma ApplyOne(fields: map<string, string>, op: PatchOperation)
    ensures ApplyPatch(fields, [op]) == fields[op.path := op.value]
  {
    assert [op][1..] == [];
  }
}
