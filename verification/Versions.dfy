/** The demo's versions and the digests that name them (examples/story/story.go, examples/demo/source_delivery.go). */
module Versions {
  import opened Text

  /** SHA-256, for what it is used as here: a name of its own for every text. */
  type Hash = f: string -> string | IsHash(f) witness Prefixed

  ghost predicate IsHash(f: string -> string) {
    (forall a, b :: f(a) == f(b) ==> a == b) && forall a :: f(a) != ""
  }

  function Prefixed(s: string): (r: string)
    ensures |r| >= 7 && r[7..] == s
  {
    "sha256:" + s
  }

  /** The versions each service has; no service has an '@' in its name. */
  type Catalogue = m: map<string, seq<string>> | forall s | s in m :: Free(s, '@') witness map[]

  const STORY_VERSIONS: Catalogue := map[
    "payments" := ["2.3.0", "2.4.0", "2.4.1", "2.4.2", "2.4.3", "3.0.0"],
    "checkout" := ["1.8.0", "1.9.0"],
    "orders" := ["1.4.0"],
    "fraud" := ["1.0.0"],
    "pay-agent" := ["1.0.0", "1.1.0"]
  ]

  datatype Registry = Registry(versions: Catalogue, sha: Hash)

  function ArtifactDigest(g: Registry, service: string, version: string): string {
    if version == "" then "" else g.sha("manifests " + (service + ['@'] + version))
  }

  /** `digest` names `version` of the service. */
  predicate Names(g: Registry, service: string, version: string, digest: string) {
    service in g.versions && version in g.versions[service] && version != "" && ArtifactDigest(g, service, version) == digest
  }

  /** A digest of the service's own. */
  predicate Known(g: Registry, service: string, digest: string) {
    service in g.versions && exists version | version in g.versions[service] :: Names(g, service, version, digest)
  }

  /** A digest names one version of one service. */
  lemma {:induction false} OneService(g: Registry, service: string, version: string, service': string, version': string, digest: string)
    requires Names(g, service, version, digest) && Names(g, service', version', digest)
    ensures service == service' && version == version'
  {
    var a, b := service + ['@'] + version, service' + ['@'] + version';
    assert ("manifests " + a)[|"manifests "|..] == a && ("manifests " + b)[|"manifests "|..] == b;
    HeadSplits(service, service', version, version', '@');
  }

  /** The version a digest is of, or nothing. */
  method VersionOf(g: Registry, service: string, digest: string) returns (version: string)
    ensures if version == "" then !Known(g, service, digest) else Names(g, service, version, digest)
  {
    if service !in g.versions {
      return "";
    }
    var vs := g.versions[service];
    for i := 0 to |vs|
      invariant forall j | 0 <= j < i :: !Names(g, service, vs[j], digest)
    {
      if ArtifactDigest(g, service, vs[i]) == digest {
        if vs[i] == "" {
          assert digest == "";
        }
        return vs[i];
      }
    }
    return "";
  }
}
