/** Constants the replication script fixes at module level. */
module Config {

  /** The two revisions of the script: `replicate/replicate-envs.py` and the older `replicate-envs.py`. */
  datatype Revision = Current | Legacy

  /** The project every replicated object is re-homed into, and the one both endpoints are addressed under. */
  const PROJECT := "system-catalog"

  /** Object types that have no version sub-resource. */
  predicate Unversioned(objectType: string) {
    objectType == "computeprofiles" || objectType == "serviceprofiles"
  }
}
