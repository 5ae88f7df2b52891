/**
  The naming and scoping rules of `NodeGraphType.Id(name, expression)`: which local-id field a
  node type declares beside its global "id" field, and the scope the "id" field resolves in.
  The framework calls around them (field registration, metadata dictionaries, expression
  compilation) are not modelled; `ToCamelCase` is a parameter because its body is not visible.
 */
module NodeGraphType {
  import opened Wrappers
  import opened DotNetStrings
  import opened Node

  /** Lower-casing of one character: the ASCII capitals map to their small letters. */
  function AsciiToLower(c: char): char
  {
    if 'A' <= c <= 'Z' then (c as int - 'A' as int + 'a' as int) as char else c
  }

  /**
    `s.ToLower()` on ASCII letters: every capital is replaced by its small letter and every other
    character is kept, so no capital remains.
   */
  function ToLower(s: string): (r: string)
    ensures |r| == |s|
    ensures forall i :: 0 <= i < |s| && 'A' <= s[i] <= 'Z' ==> r[i] as int == s[i] as int + 32
    ensures forall i :: 0 <= i < |s| && !('A' <= s[i] <= 'Z') ==> r[i] == s[i]
    ensures forall i :: 0 <= i < |r| ==> !('A' <= r[i] <= 'Z')
  {
    seq(|s|, i requires 0 <= i < |s| => AsciiToLower(s[i]))
  }

  /** The names that `name.ToLower() == "id"` accepts. */
  predicate IsIdName(name: string)
  {
    ToLower(name) == "id"
  }

  /** The fields `Id(name, expression)` adds besides the global "id" field. */
  datatype IdFields = IdFields(
    /** The name of the local-id field registered (flagged "RelayLocalIdField"), if any. */
    localIdField: Option<string>,
    /** The "RelayRelatedLocalIdField" metadata of the global "id" field, if set. */
    relatedLocalIdField: Option<string>)

  /** The `InvalidOperationException` thrown when an "id" field is renamed on a nameless type. */
  datatype FieldError = InvalidOperationException(message: string)

  const MissingParentNameMessage: string :=
    "The parent GraphQL type must define a Name before declaring the Id field " +
    "in order to properly prefix the local id field"

  /**
    The local-id field naming of `Id(name, expression)`, with `None` for a null string: a blank
    name declares no local field; a name equal to "id" ignoring case is replaced by the camel-cased
    parent type name followed by "Id", which needs a non-blank parent name; any other name is kept.
   */
  function IdFieldNames(name: Option<string>, parentName: Option<string>, toCamelCase: string -> string)
    : (r: Result<IdFields, FieldError>)
    ensures r.Failure? <==>
      !IsNullOrWhiteSpace(name) && IsIdName(name.value) && IsNullOrWhiteSpace(parentName)
    ensures r.Failure? ==> r.error == InvalidOperationException(MissingParentNameMessage)
    ensures IsNullOrWhiteSpace(name) ==> r == Success(IdFields(None, None))
    ensures !IsNullOrWhiteSpace(name) && !IsIdName(name.value) ==>
      r == Success(IdFields(name, name))
    ensures r.Success? && !IsNullOrWhiteSpace(name) && IsIdName(name.value) ==>
      && r.value.localIdField == Some(toCamelCase(parentName.value + "Id"))
      && (r.value.relatedLocalIdField.Some? <==> !IsNullOrWhiteSpace(r.value.localIdField))
    ensures r.Success? && r.value.relatedLocalIdField.Some? ==>
      r.value.relatedLocalIdField == r.value.localIdField
  {
    if IsNullOrWhiteSpace(name) then
      Success(IdFields(None, None))
    else if ToLower(name.value) == "id" then
      if IsNullOrWhiteSpace(parentName) then
        Failure(InvalidOperationException(MissingParentNameMessage))
      else
        var renamed := Some(toCamelCase(parentName.value + "Id"));
        Success(IdFields(renamed, if IsNullOrWhiteSpace(renamed) then None else renamed))
    else
      Success(IdFields(name, name))
  }

  /** Exactly the four spellings of "id" are renamed. */
  lemma IdNameSpellings(name: string)
    ensures IsIdName(name) <==> name in {"id", "Id", "iD", "ID"}
  {
    if IsIdName(name) {
      assert |name| == 2;
      assert AsciiToLower(name[0]) == 'i' && AsciiToLower(name[1]) == 'd';
      assert name == [name[0], name[1]];
    }
  }

  /**
    The value of the global "id" field: `ToGlobalId` over the parent type's name, the node's id
    and the requested "scope" argument, which defaults to global scope when it is not given.
   */
  function ResolveIdField(b: Bookmark, parentTypeName: string, id: string, scope: Option<IdScope>)
    : (token: string)
    ensures scope != Some(Local) ==> token == ToGlobalId(b, parentTypeName, id, Global)
    ensures scope == Some(Local) ==> token == id
  {
    ToGlobalId(b, parentTypeName, id, match scope case None => Global case Some(s) => s)
  }

  /** An "id" field resolved without a scope argument is a global id of the parent type. */
  lemma {:induction false} DefaultScopeRoundTrip(b: Bookmark, parentTypeName: string, id: string)
    requires Inverts(b)
    requires Delimiter !in parentTypeName && Delimiter !in id
    ensures FromGlobalId(b, ResolveIdField(b, parentTypeName, id, None)) ==
      Success(GlobalId(parentTypeName, id))
  {
    RoundTrip(b, parentTypeName, id);
  }
}
