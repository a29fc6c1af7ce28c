/**
 * Read-only reference data (categories, activities) as flat `{id, name}`
 * rows, and the fallback labels the pages show for an id they cannot name.
 */
module Catalog {
  import opened Strings

  datatype Named = Named(id: nat, name: string)

  /** The label `${prefix}${id}` shown for an id without a name. */
  function Fallback(prefix: string, id: nat): string {
    prefix + NatToString(id)
  }

  /** `names[id] || `${prefix}${id}``: a missing AND an empty name both fall back. */
  function LabelOr(names: map<nat, string>, id: nat, prefix: string): (r: string)
    ensures r != []
    ensures id in names && names[id] != [] ==> r == names[id]
    ensures id !in names || names[id] == [] ==> r == prefix + NatToString(id)
  {
    if id in names && names[id] != [] then names[id] else Fallback(prefix, id)
  }
}
