/** The two model catalogs of the token burner (burn-tokens.js:11-19): text-model
    aliases and image-model aliases, each mapped to the concrete model identifier
    that is sent to the API. */
module Catalog {

  /** The call category of one iteration. */
  datatype Kind = Text | Image

  /** Text aliases, in the order the object literal declares them (the order
      `Object.keys` enumerates them in). */
  const TextModelKeys: seq<string> := ["gpt-5", "gpt-5-mini", "gpt-5-nano"]

  const TextModels: map<string, string> := map[
    "gpt-5" := "gpt-5-2025-08-07",
    "gpt-5-mini" := "gpt-5-mini-2025-08-07",
    "gpt-5-nano" := "gpt-5-nano-2025-08-07"
  ]

  const ImageModelKeys: seq<string> := ["gpt-image-1"]

  const ImageModels: map<string, string> := map["gpt-image-1" := "gpt-image-1"]

  /** The catalog that serves requests of the given kind. */
  function Models(kind: Kind): map<string, string> {
    match kind
    case Text => TextModels
    case Image => ImageModels
  }

  /** The catalog's aliases in enumeration order. */
  function Keys(kind: Kind): seq<string> {
    match kind
    case Text => TextModelKeys
    case Image => ImageModelKeys
  }

  /** No alias is enumerated twice. */
  predicate Distinct(s: seq<string>) {
    forall i, j :: 0 <= i < j < |s| ==> s[i] != s[j]
  }

  /** The enumerated key list of each catalog is non-empty, duplicate-free and
      holds exactly the catalog's aliases, so a random index into it always
      names an alias of that catalog. */
  lemma KeysEnumerateCatalog(kind: Kind)
    ensures |Keys(kind)| > 0
    ensures Distinct(Keys(kind))
    ensures forall k :: k in Keys(kind) <==> k in Models(kind)
  {
  }

  /** No alias belongs to both catalogs, and no concrete identifier is empty (so
      the source's truthiness tests `MODELS[arg] || ...` coincide with key
      membership). */
  lemma CatalogsAreDisjoint()
    ensures TextModels.Keys !! ImageModels.Keys
    ensures forall k :: k in TextModels ==> TextModels[k] != ""
    ensures forall k :: k in ImageModels ==> ImageModels[k] != ""
  {
  }
}
