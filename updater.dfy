/**
 * The decision `main` takes once the names are built and the zones are
 * listed (src/main.rs:45-61): update when a zone was found, otherwise
 * report the domain as an unknown hosted zone and still succeed.
 */
module Updater {
  import opened Options
  import opened Names
  import opened Zones
  import opened Changes

  /**
   * How a run that met no I/O error ends: with the request submitted to
   * Route 53, or with the "unknown hosted zone" report naming the domain
   * argument. Both are `Ok(())` in the source.
   */
  datatype Outcome = Submitted(request: ChangeRequest) | UnknownHostedZone(domain: string)

  /**
   * One run of `main` for the HOST and DOMAIN arguments, the address read
   * from instance metadata, and the zones the listing returned for the
   * lookup key.
   */
  method Run(host: string, domain: string, ipv4: string, zones: seq<HostedZone>) returns (outcome: Outcome)
    ensures outcome.Submitted? <==> exists i :: 0 <= i < |zones| && Eligible(zones[i], ZoneDomain(domain))
    ensures outcome.Submitted? ==>
              exists i :: FirstEligibleAt(zones, ZoneDomain(domain), i)
                       && outcome.request == UpdateRequest(zones[i].id, DnsName(host, domain), ipv4)
    ensures outcome.UnknownHostedZone? ==> outcome.domain == domain
  {
    var dnsName := DnsName(host, domain);
    var zoneDomain := ZoneDomain(domain);
    var found := GetZoneId(zones, zoneDomain);
    match found {
      case Some(zone) =>
        outcome := Submitted(UpdateRequest(zone, dnsName, ipv4));
      case None =>
        outcome := UnknownHostedZone(domain);
    }
  }

  /**
   * What a submitted request promises about the zone it is sent to and the
   * record it writes: the zone was listed, is public, and is named by the
   * absolute form of the domain; the record name keeps the domain as given.
   */
  lemma SubmittedTargetsListedPublicZone(
    host: string, domain: string, ipv4: string, zones: seq<HostedZone>, req: ChangeRequest)
    requires exists i :: FirstEligibleAt(zones, ZoneDomain(domain), i)
                      && req == UpdateRequest(zones[i].id, DnsName(host, domain), ipv4)
    ensures IsSingleUpsert(req)
    ensures exists z :: z in zones && z.id == req.hostedZoneId && IsPublic(z)
                     && z.name == ZoneDomain(domain) && EndsWithDot(z.name)
    ensures HostOf(TargetOf(req).dnsName, domain) == Some(host)
    ensures TargetOf(req).ipv4 == ipv4
  {
  }

  /**
   * The record built for host `www`, domain `example.com` and address
   * `203.0.113.5` when `example.com.` is listed three times: private, public
   * and without config. Only the public zone is chosen.
   */
  lemma ExampleRun()
    ensures var zones := [HostedZone("Z1", "example.com.", Some(HostedZoneConfig(None, Some(true)))),
                          HostedZone("Z2", "example.com.", Some(HostedZoneConfig(None, Some(false)))),
                          HostedZone("Z3", "example.com.", None)];
            SelectZone(zones, ZoneDomain("example.com")) == Some("Z2")
            && UpdateRequest("Z2", DnsName("www", "example.com"), "203.0.113.5")
               == ChangeRequest(
                    ChangeBatch(
                      [Change("UPSERT", ResourceRecordSet("www.example.com", "A", Some([ResourceRecord("203.0.113.5")]),
                                                         Some(60), None, None, None, None, None, None))],
                      Some("r53up change")),
                    "Z2")
  {
    assert DnsName("www", "example.com") == "www.example.com";
  }

  /** A key that names no listed zone selects nothing; that is not an error. */
  lemma ExampleNoMatch()
    ensures SelectZone([HostedZone("Z1", "example.com.", Some(HostedZoneConfig(None, Some(false))))],
                       ZoneDomain("sub.example.com")) == None
  {
  }
}
