/**
 * The `Context` value (an owner id with its kind, `@person` or `@space`) and
 * `ContextHandler.get`, which derives the context of a request from the token's owner.
 */
module Contexts {
  import opened JavaStrings

  /** `new Context(contextId, contextType)`. */
  datatype Context = Context(contextId: string, contextType: string)

  /** Owner ids of spaces carry this prefix; plain ids are people. */
  const SpacePrefix: string := "s_"

  const PersonType: string := "@person"
  const SpaceType: string := "@space"

  /** `ContextHandler.get`: the owner `s_<id>` is the space `<id>`; any other owner is a person. */
  function ContextOfOwner(owner: string): (c: Context)
    ensures StartsWith(owner, SpacePrefix) ==> c.contextType == SpaceType && SpacePrefix + c.contextId == owner
    ensures !StartsWith(owner, SpacePrefix) ==> c == Context(owner, PersonType)
  {
    if StartsWith(owner, SpacePrefix) then
      ReplaceFirstOfPrefix(owner, SpacePrefix);
      assert SpacePrefix + owner[|SpacePrefix|..] == owner;
      Context(ReplaceFirst(owner, SpacePrefix, ""), SpaceType)
    else
      Context(owner, PersonType)
  }

  /** The id of a space owner is the owner with only its leading `s_` removed, even when
      the rest contains `s_` again. */
  lemma SpaceOwnerKeepsInnerPrefix(id: string)
    ensures ContextOfOwner(SpacePrefix + id) == Context(id, SpaceType)
  {
    var owner := SpacePrefix + id;
    assert owner[..|SpacePrefix|] == SpacePrefix;
    ReplaceFirstOfPrefix(owner, SpacePrefix);
    assert owner[|SpacePrefix|..] == id;
  }
}
