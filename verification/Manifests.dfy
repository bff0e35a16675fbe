/** Desired objects, as adapters hand them to the engine. */
module Manifests {
  import opened Kinds
  import opened Specs

  datatype Path =
    | Label(key: string)
    | Copied(field: Field)
    | InstanceSelector
    | PodSelector
    | FsGroup
    | Body

  /** A desired object: the fields to apply, and the finalizers it puts on the object. */
  datatype Manifest = Manifest(fields: map<Path, Value>, pins: set<string>)

  /** desired is None when the object must be absent. */
  datatype Extra = Extra(gvk: Gvk, name: string, desired: Option<Manifest>, patchOnly: bool)

  /** The fixed non-root group of the Loki image. */
  const LOKI_FS_GROUP := 10001

  /** The only field this operator ever claims on a StatefulSet. */
  const FS_GROUP_PATCH := Manifest(map[FsGroup := Int(LOKI_FS_GROUP)], {})

  predicate Matches(labels: map<string, string>, selector: map<string, string>) {
    forall l :: l in selector ==> l in labels && labels[l] == selector[l]
  }
}
