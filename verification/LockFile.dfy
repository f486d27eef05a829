/** The entries of pacto.lock (pkg/lock/lock.go) and the ways a lock build fails. */
module LockFile {

  const CURRENT_LOCK_VERSION := 3

  /** One resolved dependency. */
  datatype Entry = Entry(name: string, source: string, ref: string, path: string, constraint: string,
                         version: string, digest: string, contentHash: string, dependsOn: seq<string>)

  /** The identity of one declared reference: a struct, never a rendering of it. */
  datatype Occurrence = Occurrence(from: string, kind: string, name: string)

  /** One resolved config or policy declaration. */
  datatype Reference = Reference(from: string, kind: string, name: string, source: string, ref: string,
                                 path: string, version: string, digest: string, contentHash: string)
  {
    function Occ(): Occurrence {
      Occurrence(from, kind, name)
    }

    /** The content identity of what this reference resolved to, in the namespace of `from`. */
    function DestinationID(): string {
      if source == "local" && contentHash != "" then "local:" + contentHash
      else if source == "oci" && digest != "" then "oci:" + digest
      else ""
    }
  }

  datatype Lock = Lock(lockVersion: int, tool: string, root: string, rootVersion: string,
                       dependencies: seq<Entry>, references: seq<Reference>)

  datatype BuildError =
    | DuplicateDeclaration(occurrence: Occurrence)
    | Ambiguous(occurrence: Occurrence, first: Reference, second: Reference)
    | Unresolved(ref: string, reason: string)
}
