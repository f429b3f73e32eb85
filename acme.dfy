/** The parts of the ACME client library (package `acme`) that the OVH provider calls. */
module Acme {

  /** What `acme.DNS01Record` derives from a domain and a key authorisation:
      the record's fully qualified name, its TXT value and its TTL. */
  datatype ChallengeRecord = ChallengeRecord(fqdn: string, value: string, ttl: int)

  /** The deterministic helpers whose definitions are not part of this model,
      supplied as total functions: `acme.DNS01Record(domain, keyAuth)` and `acme.ToFqdn(name)`. */
  datatype Collaborators = Collaborators(
    dns01Record: (string, string) -> ChallengeRecord,
    toFqdn: string -> string)

  /** `acme.UnFqdn`: the name without its trailing root dot, if it has one. */
  function UnFqdn(name: string): (r: string)
    ensures r <= name && |name| <= |r| + 1
    ensures |r| < |name| <==> name != [] && name[|name| - 1] == '.'
  {
    if |name| != 0 && name[|name| - 1] == '.' then name[..|name| - 1] else name
  }

  /** Removing the root dot undoes adding one. */
  lemma UnFqdnOfRooted(name: string)
    ensures UnFqdn(name + ".") == name
  {
  }
}
