/** The OVH DNS provider for the DNS-01 challenge (providers/dns/ovh/ovh.go):
    the record-name helper, and the ledger of record IDs that `Present` fills and
    `CleanUp` empties, first as pure step functions and then as a class whose
    methods are proved to take exactly those steps. */
module Ovh {
  import opened Wrappers
  import opened Strings
  import opened Acme

  /** The outcome of one remote call (zone lookup, OVH API post or delete):
      the value it returned, or the error it failed with. */
  datatype Reply<T> = Ok(value: T) | Failed(cause: string)

  /** The errors the provider returns; the strings are the wrapped causes. */
  datatype Error =
    | CredentialsMissing
    | ClientInit(cause: string)
    | ZoneNotFound(domain: string, cause: string)
    | AddRecordFailed(cause: string)
    | RefreshFailed(cause: string)
    | UnknownRecordID(fqdn: string)
    | DeleteFailed(cause: string)

  /** The body of the record-creation request. */
  datatype TxtRecordRequest = TxtRecordRequest(fieldType: string, subDomain: string, target: string, ttl: int)

  /** A remote call the provider attempted, with the zone and record it targeted. */
  datatype Call =
    | FindZone(fqdn: string)                            // acme.FindZoneByFqdn
    | PostRecord(zone: string, body: TxtRecordRequest)  // POST /domain/zone/{zone}/record
    | PostRefresh(zone: string)                         // POST /domain/zone/{zone}/refresh
    | DeleteRecord(zone: string, id: int)               // DELETE /domain/zone/{zone}/record/{id}

  /** The effect of one operation: the ledger afterwards, the remote calls attempted
      in order, and the error returned (None for success). */
  datatype Step = Step(ledger: map<string, int>, calls: seq<Call>, err: Option<Error>)

  /** The ledger of a freshly constructed provider. */
  const EmptyLedger: map<string, int> := map[]

  // ---------------------------------------------------------------------------
  // Record name

  /** `extractRecordName`: the unqualified fqdn cut at the FIRST occurrence of
      "." + zone, or the whole unqualified fqdn when that pattern does not occur. */
  function ExtractRecordName(fqdn: string, zone: string): (r: string)
    ensures r <= UnFqdn(fqdn)
    ensures Contains(UnFqdn(fqdn), "." + zone) ==> r + ("." + zone) <= UnFqdn(fqdn)
    ensures forall i :: 0 <= i < |r| ==> !OccursAt(UnFqdn(fqdn), "." + zone, i)
    ensures !Contains(r, "." + zone)
    ensures !Contains(UnFqdn(fqdn), "." + zone) ==> r == UnFqdn(fqdn)
  {
    var name := UnFqdn(fqdn);
    var idx := Index(name, "." + zone);
    var r := if idx != -1 then name[..idx] else name;
    assert !Contains(r, "." + zone) by {
      if i :| OccursAt(r, "." + zone, i) {
        OccursInPrefix(r, name, "." + zone, i);
      }
    }
    r
  }

  /** When the name's first label holds no dot and is followed by "." + zone, the
      result is that label, whatever follows: the pattern is matched anywhere, not
      only as a suffix. */
  lemma {:induction false} FirstLabelIsCut(first: string, zone: string, rest: string)
    requires '.' !in first
    ensures ExtractRecordName(first + "." + zone + rest + ".", zone) == first
  {
    var name := first + "." + zone + rest;
    var pat := "." + zone;
    UnFqdnOfRooted(name);
    assert UnFqdn(first + "." + zone + rest + ".") == name;
    assert name[..|first|] == first;
    assert name[|first|..|first| + |pat|] == pat;
    assert OccursAt(name, pat, |first|);
    forall i | 0 <= i < |first| ensures !OccursAt(name, pat, i) {
      assert name[i] == first[i];
      assert pat[0] == '.';
    }
    var idx := Index(name, pat);
    assert idx == |first|;
  }

  /** When "." + zone first occurs as the suffix of the unqualified name, the result
      is the name with that suffix removed. */
  lemma {:induction false} StripsUniqueSuffix(sub: string, zone: string)
    requires forall i :: 0 <= i < |sub| ==> !OccursAt(sub + "." + zone, "." + zone, i)
    ensures ExtractRecordName(sub + "." + zone + ".", zone) == sub
  {
    var name := sub + "." + zone;
    var pat := "." + zone;
    assert name == sub + pat;
    UnFqdnOfRooted(name);
    assert name[|sub|..|sub| + |pat|] == pat;
    assert OccursAt(name, pat, |sub|);
    var idx := Index(name, pat);
    assert idx == |sub|;
    assert name[..|sub|] == sub;
  }

  /** A name whose zone continues into a longer label is cut inside that label. */
  lemma ZoneInsideLongerLabel()
    ensures ExtractRecordName("_acme-challenge.example.community.", "example.com") == "_acme-challenge"
  {
    var name := "_acme-challenge.example.community.";
    assert name == "_acme-challenge" + "." + "example.com" + "munity" + ".";
    FirstLabelIsCut("_acme-challenge", "example.com", "munity");
  }

  /** A delegated name that repeats the zone is cut at the first repetition, not at the suffix. */
  lemma ZoneRepeatedInName()
    ensures ExtractRecordName("_acme-challenge.example.community.example.com.", "example.com")
            == "_acme-challenge"
  {
    var name := "_acme-challenge.example.community.example.com.";
    assert name == "_acme-challenge" + "." + "example.com" + "munity.example.com" + ".";
    FirstLabelIsCut("_acme-challenge", "example.com", "munity.example.com");
  }

  // ---------------------------------------------------------------------------
  // Operations as steps on the ledger

  /** `NewDNSProviderCredentials`'s checks: all four credentials non-empty, then a client
      built from them (`client` is the outcome of `ovh.NewClient`). None means success. */
  function CheckCredentials(apiEndpoint: string, applicationKey: string, applicationSecret: string,
                            consumerKey: string, client: Reply<()>): (err: Option<Error>)
    ensures err == Some(CredentialsMissing)
            <==> apiEndpoint == "" || applicationKey == "" || applicationSecret == "" || consumerKey == ""
    ensures err.None? <==> apiEndpoint != "" && applicationKey != "" && applicationSecret != ""
                           && consumerKey != "" && client.Ok?
    ensures client.Failed? && err != Some(CredentialsMissing) ==> err == Some(ClientInit(client.cause))
  {
    if apiEndpoint == "" || applicationKey == "" || applicationSecret == "" || consumerKey == "" then
      Some(CredentialsMissing)
    else if client.Failed? then
      Some(ClientInit(client.cause))
    else
      None
  }

  /** `Present`: look the zone up, create the TXT record, refresh the zone, and only then
      record the new ID under the challenge fqdn. `zone`, `created` and `refreshed` are the
      replies of the three remote calls; a call whose predecessor failed is not made. */
  function PresentStep(ids: map<string, int>, acme: Collaborators, domain: string, keyAuth: string,
                       zone: Reply<string>, created: Reply<int>, refreshed: Reply<()>): (s: Step)
    ensures s.err.None? <==> zone.Ok? && created.Ok? && refreshed.Ok?
    ensures s.err.Some? ==> s.ledger == ids
    ensures s.err.None? ==>
              s.ledger == ids[acme.dns01Record(domain, keyAuth).fqdn := created.value]
    ensures zone.Failed? ==>
              s.calls == [FindZone(acme.toFqdn(domain))] && s.err == Some(ZoneNotFound(domain, zone.cause))
    ensures zone.Ok? ==>
              var z := UnFqdn(zone.value);
              var ch := acme.dns01Record(domain, keyAuth);
              |s.calls| >= 2 && s.calls[..2] == [FindZone(acme.toFqdn(domain)),
                PostRecord(z, TxtRecordRequest("TXT", ExtractRecordName(ch.fqdn, z), ch.value, ch.ttl))]
    ensures zone.Ok? && created.Failed? ==> |s.calls| == 2 && s.err == Some(AddRecordFailed(created.cause))
    ensures zone.Ok? && created.Ok? ==>
              |s.calls| == 3 && s.calls[2] == PostRefresh(UnFqdn(zone.value))
    ensures zone.Ok? && created.Ok? && refreshed.Failed? ==> s.err == Some(RefreshFailed(refreshed.cause))
    ensures forall c :: c in s.calls ==> !c.DeleteRecord?
  {
    var ch := acme.dns01Record(domain, keyAuth);
    var lookup := [FindZone(acme.toFqdn(domain))];
    match zone
    case Failed(cause) => Step(ids, lookup, Some(ZoneNotFound(domain, cause)))
    case Ok(found) =>
      var z := UnFqdn(found);
      var post := lookup + [PostRecord(z, TxtRecordRequest("TXT", ExtractRecordName(ch.fqdn, z), ch.value, ch.ttl))];
      match created
      case Failed(cause) => Step(ids, post, Some(AddRecordFailed(cause)))
      case Ok(id) =>
        var refresh := post + [PostRefresh(z)];
        match refreshed
        case Failed(cause) => Step(ids, refresh, Some(RefreshFailed(cause)))
        case Ok(_) => Step(ids[ch.fqdn := id], refresh, None)
  }

  /** `CleanUp`: find the ID stored for the challenge fqdn (failing before any remote call
      when there is none), look the zone up, delete that record, and only then evict the
      key. `zone` and `deleted` are the replies of the two remote calls. */
  function CleanUpStep(ids: map<string, int>, acme: Collaborators, domain: string, keyAuth: string,
                       zone: Reply<string>, deleted: Reply<()>): (s: Step)
    ensures var fqdn := acme.dns01Record(domain, keyAuth).fqdn;
            fqdn !in ids ==> s == Step(ids, [], Some(UnknownRecordID(fqdn)))
    ensures s.err.None? <==> acme.dns01Record(domain, keyAuth).fqdn in ids && zone.Ok? && deleted.Ok?
    ensures s.err.Some? ==> s.ledger == ids
    ensures s.err.None? ==> s.ledger == ids - {acme.dns01Record(domain, keyAuth).fqdn}
    ensures var fqdn := acme.dns01Record(domain, keyAuth).fqdn;
            fqdn in ids && zone.Failed? ==>
              s.calls == [FindZone(acme.toFqdn(domain))] && s.err == Some(ZoneNotFound(domain, zone.cause))
    ensures var fqdn := acme.dns01Record(domain, keyAuth).fqdn;
            fqdn in ids && zone.Ok? ==>
              s.calls == [FindZone(acme.toFqdn(domain)), DeleteRecord(UnFqdn(zone.value), ids[fqdn])]
    ensures var fqdn := acme.dns01Record(domain, keyAuth).fqdn;
            fqdn in ids && zone.Ok? && deleted.Failed? ==> s.err == Some(DeleteFailed(deleted.cause))
    ensures forall c :: c in s.calls ==> !c.PostRecord? && !c.PostRefresh?
  {
    var fqdn := acme.dns01Record(domain, keyAuth).fqdn;
    if fqdn !in ids then
      Step(ids, [], Some(UnknownRecordID(fqdn)))
    else
      var id := ids[fqdn];
      var lookup := [FindZone(acme.toFqdn(domain))];
      match zone
      case Failed(cause) => Step(ids, lookup, Some(ZoneNotFound(domain, cause)))
      case Ok(found) =>
        var del := lookup + [DeleteRecord(UnFqdn(found), id)];
        match deleted
        case Failed(cause) => Step(ids, del, Some(DeleteFailed(cause)))
        case Ok(_) => Step(ids - {fqdn}, del, None)
  }

  // ---------------------------------------------------------------------------
  // Properties of the ledger

  /** A successful Present followed by a successful CleanUp of the same challenge leaves the
      fqdn without an entry and every other key untouched; the delete targets the ID the
      create returned. When the fqdn had no entry before, the original ledger is restored. */
  lemma PresentThenCleanUp(ids: map<string, int>, acme: Collaborators, domain: string, keyAuth: string,
                           zone: Reply<string>, created: Reply<int>, refreshed: Reply<()>,
                           zone2: Reply<string>, deleted: Reply<()>)
    requires PresentStep(ids, acme, domain, keyAuth, zone, created, refreshed).err.None?
    requires zone2.Ok? && deleted.Ok?
    ensures var fqdn := acme.dns01Record(domain, keyAuth).fqdn;
            var p := PresentStep(ids, acme, domain, keyAuth, zone, created, refreshed);
            var c := CleanUpStep(p.ledger, acme, domain, keyAuth, zone2, deleted);
            && c.err.None?
            && c.calls[1] == DeleteRecord(UnFqdn(zone2.value), created.value)
            && c.ledger == ids - {fqdn}
            && (fqdn !in ids ==> c.ledger == ids)
  {
  }

  /** A second successful Present for the same challenge overwrites the first ID:
      the ledger is as if only the second had happened. */
  lemma LastPresentWins(ids: map<string, int>, acme: Collaborators, domain: string, keyAuth: string,
                        zone: Reply<string>, created: Reply<int>, refreshed: Reply<()>,
                        zone2: Reply<string>, created2: Reply<int>, refreshed2: Reply<()>)
    requires PresentStep(ids, acme, domain, keyAuth, zone, created, refreshed).err.None?
    requires zone2.Ok? && created2.Ok? && refreshed2.Ok?
    ensures var p := PresentStep(ids, acme, domain, keyAuth, zone, created, refreshed);
            var q := PresentStep(p.ledger, acme, domain, keyAuth, zone2, created2, refreshed2);
            && q.ledger == PresentStep(ids, acme, domain, keyAuth, zone2, created2, refreshed2).ledger
            && q.ledger[acme.dns01Record(domain, keyAuth).fqdn] == created2.value
  {
  }

  /** Two successful Presents for challenges with different fqdns give the same ledger in
      either order, and each fqdn maps to the ID of its own create. */
  lemma PresentsCommute(ids: map<string, int>, acme: Collaborators,
                        domainA: string, keyAuthA: string, zoneA: Reply<string>, createdA: Reply<int>, refreshedA: Reply<()>,
                        domainB: string, keyAuthB: string, zoneB: Reply<string>, createdB: Reply<int>, refreshedB: Reply<()>)
    requires acme.dns01Record(domainA, keyAuthA).fqdn != acme.dns01Record(domainB, keyAuthB).fqdn
    requires zoneA.Ok? && createdA.Ok? && refreshedA.Ok?
    requires zoneB.Ok? && createdB.Ok? && refreshedB.Ok?
    ensures var ab := PresentStep(PresentStep(ids, acme, domainA, keyAuthA, zoneA, createdA, refreshedA).ledger,
                                  acme, domainB, keyAuthB, zoneB, createdB, refreshedB).ledger;
            var ba := PresentStep(PresentStep(ids, acme, domainB, keyAuthB, zoneB, createdB, refreshedB).ledger,
                                  acme, domainA, keyAuthA, zoneA, createdA, refreshedA).ledger;
            && ab == ba
            && ab[acme.dns01Record(domainA, keyAuthA).fqdn] == createdA.value
            && ab[acme.dns01Record(domainB, keyAuthB).fqdn] == createdB.value
  {
  }

  /** The partial failure the provider does not compensate: when the create succeeds but
      the refresh fails, the record was posted, yet a later CleanUp of a challenge that had
      no entry reports an unknown record and attempts no remote call. */
  lemma RefreshFailureOrphansRecord(ids: map<string, int>, acme: Collaborators, domain: string, keyAuth: string,
                                    zone: Reply<string>, created: Reply<int>, refreshed: Reply<()>,
                                    zone2: Reply<string>, deleted: Reply<()>)
    requires acme.dns01Record(domain, keyAuth).fqdn !in ids
    requires zone.Ok? && created.Ok? && refreshed.Failed?
    ensures var p := PresentStep(ids, acme, domain, keyAuth, zone, created, refreshed);
            var c := CleanUpStep(p.ledger, acme, domain, keyAuth, zone2, deleted);
            && p.err == Some(RefreshFailed(refreshed.cause))
            && p.calls[1].PostRecord?
            && c.err == Some(UnknownRecordID(acme.dns01Record(domain, keyAuth).fqdn))
            && c.calls == []
  {
  }

  // ---------------------------------------------------------------------------
  // The provider object

  /** `DNSProvider`: the OVH client (not modelled) and the ledger `recordIDs`, which maps a
      challenge fqdn to the ID OVH assigned to its TXT record. `acme` is the fixed pair of
      package helpers, so `Present` and `CleanUp` derive the same fqdn from the same challenge.
      `calls` records every remote call the provider has attempted. */
  class DNSProvider {
    const acme: Collaborators
    var recordIDs: map<string, int>
    ghost var calls: seq<Call>

    constructor (acme: Collaborators)
      ensures this.acme == acme && recordIDs == EmptyLedger && calls == []
    {
      this.acme := acme;
      recordIDs := EmptyLedger;
      calls := [];
    }

    /** `NewDNSProviderCredentials`: a provider with an empty ledger, or the error of
        `CheckCredentials`; `client` is the outcome of building the OVH client, and `acme`
        the package helpers every later call of the provider uses. */
    static method NewDNSProviderCredentials(acme: Collaborators, apiEndpoint: string, applicationKey: string,
                                            applicationSecret: string, consumerKey: string,
                                            client: Reply<()>)
      returns (p: DNSProvider?, err: Option<Error>)
      ensures err == CheckCredentials(apiEndpoint, applicationKey, applicationSecret, consumerKey, client)
      ensures p != null <==> err.None?
      ensures p != null ==> fresh(p) && p.acme == acme && p.recordIDs == EmptyLedger && p.calls == []
    {
      if apiEndpoint == "" || applicationKey == "" || applicationSecret == "" || consumerKey == "" {
        return null, Some(CredentialsMissing);
      }
      if client.Failed? {
        return null, Some(ClientInit(client.cause));
      }
      p := new DNSProvider(acme);
      err := None;
    }

    /** `Present`: takes exactly the step `PresentStep` describes. `token` is unused, as in
        the source. */
    method Present(domain: string, token: string, keyAuth: string,
                   zone: Reply<string>, created: Reply<int>, refreshed: Reply<()>)
      returns (err: Option<Error>)
      modifies this
      ensures var s := PresentStep(old(recordIDs), acme, domain, keyAuth, zone, created, refreshed);
              recordIDs == s.ledger && calls == old(calls) + s.calls && err == s.err
      ensures err.Some? ==> recordIDs == old(recordIDs)
    {
      var ch := acme.dns01Record(domain, keyAuth);
      calls := calls + [FindZone(acme.toFqdn(domain))];
      if zone.Failed? {
        return Some(ZoneNotFound(domain, zone.cause));
      }
      var authZone := UnFqdn(zone.value);
      var subDomain := ExtractRecordName(ch.fqdn, authZone);
      var reqData := TxtRecordRequest("TXT", subDomain, ch.value, ch.ttl);
      calls := calls + [PostRecord(authZone, reqData)];
      if created.Failed? {
        return Some(AddRecordFailed(created.cause));
      }
      calls := calls + [PostRefresh(authZone)];
      if refreshed.Failed? {
        return Some(RefreshFailed(refreshed.cause));
      }
      recordIDs := recordIDs[ch.fqdn := created.value];
      err := None;
    }

    /** `CleanUp`: takes exactly the step `CleanUpStep` describes. `token` is unused, as in
        the source. */
    method CleanUp(domain: string, token: string, keyAuth: string,
                   zone: Reply<string>, deleted: Reply<()>)
      returns (err: Option<Error>)
      modifies this
      ensures var s := CleanUpStep(old(recordIDs), acme, domain, keyAuth, zone, deleted);
              recordIDs == s.ledger && calls == old(calls) + s.calls && err == s.err
      ensures err.Some? ==> recordIDs == old(recordIDs)
    {
      var fqdn := acme.dns01Record(domain, keyAuth).fqdn;
      if fqdn !in recordIDs {
        return Some(UnknownRecordID(fqdn));
      }
      var recordID := recordIDs[fqdn];
      calls := calls + [FindZone(acme.toFqdn(domain))];
      if zone.Failed? {
        return Some(ZoneNotFound(domain, zone.cause));
      }
      var authZone := UnFqdn(zone.value);
      calls := calls + [DeleteRecord(authZone, recordID)];
      if deleted.Failed? {
        return Some(DeleteFailed(deleted.cause));
      }
      recordIDs := recordIDs - {fqdn};
      err := None;
    }
  }

  /** A client of the class: a fresh provider that presents a challenge and then cleans it
      up is back to an empty ledger, having made five remote calls. */
  method PresentThenCleanUpClient(acme: Collaborators, domain: string, token: string, keyAuth: string,
                                  found: string, id: int)
    returns (p: DNSProvider?, err: Option<Error>)
    ensures err.None? && p != null && fresh(p)
    ensures p.recordIDs == EmptyLedger && |p.calls| == 5
  {
    p, err := DNSProvider.NewDNSProviderCredentials(acme, "ovh-eu", "key", "secret", "consumer", Ok(()));
    err := p.Present(domain, token, keyAuth, Ok(found), Ok(id), Ok(()));
    err := p.CleanUp(domain, token, keyAuth, Ok(found), Ok(()));
  }
}
