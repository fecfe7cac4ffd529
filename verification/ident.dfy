/**
 * Package identifiers of the habitat core crate. Parsing and rendering of
 * identifiers belong to that crate, which is not part of this model; an
 * identifier is a structured value here and its string form is the rendering
 * `origin/name[/version[/release]]`, used only to compare what is passed on.
 */
module Ident {
  import opened Wrappers

  datatype PackageIdent = PackageIdent(
    origin: string,
    name: string,
    version: Option<string>,
    release: Option<string>)

  /** An identifier with only an origin and a name, such as `core/hab-pkg-tarize`. */
  function Unqualified(origin: string, name: string): PackageIdent
  {
    PackageIdent(origin, name, None, None)
  }

  /** The string form of an identifier (its `Display` rendering). */
  function ToString(id: PackageIdent): string
  {
    match (id.version, id.release)
    case (Some(v), Some(r)) => id.origin + "/" + id.name + "/" + v + "/" + r
    case (Some(v), None) => id.origin + "/" + id.name + "/" + v
    case _ => id.origin + "/" + id.name
  }
}
