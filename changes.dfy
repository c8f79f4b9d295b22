/**
 * The change request `update` submits (src/main.rs:91-122): one UPSERT of
 * an A record (section 3.4.1 of RFC 1035) with a fixed TTL and comment.
 */
module Changes {
  import opened Options

  const UpsertAction: string := "UPSERT"
  const AddressType: string := "A"
  const RecordTtl: int := 60
  const ChangeComment: string := "r53up change"

  datatype ResourceRecord = ResourceRecord(value: string)

  /**
   * A record set. The fields after `ttl` are the ones `update` leaves at
   * their defaults (`..Default::default()`), that is, absent.
   */
  datatype ResourceRecordSet = ResourceRecordSet(
    name: string,
    recordType: string,
    resourceRecords: Option<seq<ResourceRecord>>,
    ttl: Option<int>,
    setIdentifier: Option<string>,
    weight: Option<int>,
    region: Option<string>,
    failover: Option<string>,
    healthCheckId: Option<string>,
    trafficPolicyInstanceId: Option<string>)

  datatype Change = Change(action: string, resourceRecordSet: ResourceRecordSet)

  datatype ChangeBatch = ChangeBatch(changes: seq<Change>, comment: Option<string>)

  datatype ChangeRequest = ChangeRequest(changeBatch: ChangeBatch, hostedZoneId: string)

  /** `update`'s three arguments: the zone id, the record name and the address. */
  datatype Target = Target(zone: string, dnsName: string, ipv4: string)

  /** A record set carrying nothing but a name, type, TTL and its records. */
  predicate NoDefaultsOverridden(rrs: ResourceRecordSet) {
    rrs.setIdentifier.None? && rrs.weight.None? && rrs.region.None? && rrs.failover.None?
    && rrs.healthCheckId.None? && rrs.trafficPolicyInstanceId.None?
  }

  /**
   * The shape of every request this program submits: a batch of exactly one
   * UPSERT of an A record with TTL 60 and one value, commented "r53up change".
   */
  predicate IsSingleUpsert(req: ChangeRequest) {
    |req.changeBatch.changes| == 1
    && req.changeBatch.comment == Some(ChangeComment)
    && req.changeBatch.changes[0].action == UpsertAction
    && IsSingleAddress(req.changeBatch.changes[0].resourceRecordSet)
  }

  /** An A record set with TTL 60, one value and no other settings. */
  predicate IsSingleAddress(rrs: ResourceRecordSet) {
    rrs.recordType == AddressType
    && rrs.ttl == Some(RecordTtl)
    && rrs.resourceRecords.Some? && |rrs.resourceRecords.value| == 1
    && NoDefaultsOverridden(rrs)
  }

  /** What a single-upsert request targets: zone, record name and address. */
  function TargetOf(req: ChangeRequest): (target: Target)
    requires IsSingleUpsert(req)
  {
    var rrs := req.changeBatch.changes[0].resourceRecordSet;
    Target(req.hostedZoneId, rrs.name, rrs.resourceRecords.value[0].value)
  }

  /**
   * The request `update` builds: it has the fixed single-upsert shape and
   * targets exactly the given zone, record name and address.
   */
  function UpdateRequest(zone: string, dnsName: string, ipv4: string): (req: ChangeRequest)
    ensures IsSingleUpsert(req)
    ensures TargetOf(req) == Target(zone, dnsName, ipv4)
  {
    var rrs := ResourceRecordSet(
      dnsName, AddressType, Some([ResourceRecord(ipv4)]), Some(RecordTtl),
      None, None, None, None, None, None);
    ChangeRequest(ChangeBatch([Change(UpsertAction, rrs)], Some(ChangeComment)), zone)
  }

  /**
   * The converse: every single-upsert request is the one `update` builds
   * from what it targets, so the fixed fields leave nothing else free.
   */
  lemma {:induction false} UpdateRequestOfTarget(req: ChangeRequest)
    requires IsSingleUpsert(req)
    ensures UpdateRequest(TargetOf(req).zone, TargetOf(req).dnsName, TargetOf(req).ipv4) == req
  {
    var rrs := req.changeBatch.changes[0].resourceRecordSet;
    assert rrs.resourceRecords.value == [rrs.resourceRecords.value[0]];
    assert req.changeBatch.changes == [req.changeBatch.changes[0]];
  }

  /** Distinct targets give distinct requests. */
  lemma UpdateRequestInjective(a: Target, b: Target)
    requires UpdateRequest(a.zone, a.dnsName, a.ipv4) == UpdateRequest(b.zone, b.dnsName, b.ipv4)
    ensures a == b
  {
  }
}
