/**
 * Hosted-zone selection, `get_zone_id` (src/main.rs:69-89), with the
 * listing passed in as the sequence of zones the provider returned.
 */
module Zones {
  import opened Options

  /** The `config` of a listed zone; `private_zone` may be absent. */
  datatype HostedZoneConfig = HostedZoneConfig(comment: Option<string>, privateZone: Option<bool>)

  /** A zone of the listing, as far as the selection reads it. */
  datatype HostedZone = HostedZone(id: string, name: string, config: Option<HostedZoneConfig>)

  /** A zone is public only when its config says `private_zone: Some(false)`. */
  predicate IsPublic(zone: HostedZone) {
    zone.config.Some? && zone.config.value.privateZone == Some(false)
  }

  /** A zone the updater may use for lookup key `name`: exact name, public. */
  predicate Eligible(zone: HostedZone, name: string) {
    zone.name == name && IsPublic(zone)
  }

  predicate NoneEligible(zones: seq<HostedZone>, name: string) {
    forall i :: 0 <= i < |zones| ==> !Eligible(zones[i], name)
  }

  /** Zone `i` is eligible and no zone before it is. */
  predicate FirstEligibleAt(zones: seq<HostedZone>, name: string, i: int) {
    0 <= i < |zones| && Eligible(zones[i], name) && NoneEligible(zones[..i], name)
  }

  /** No zone of `[zone] + zones` is eligible iff neither `zone` nor any of `zones` is. */
  lemma NoneEligibleCons(zone: HostedZone, zones: seq<HostedZone>, name: string)
    ensures NoneEligible([zone] + zones, name) <==> !Eligible(zone, name) && NoneEligible(zones, name)
  {
    var all := [zone] + zones;
    assert all[0] == zone;
    assert forall i :: 1 <= i < |all| ==> all[i] == zones[i - 1];
    assert forall i :: 0 <= i < |zones| ==> zones[i] == all[i + 1];
  }

  /** The selection as a function: the id of the first eligible zone, verbatim. */
  function SelectZone(zones: seq<HostedZone>, name: string): Option<string> {
    if zones == [] then None
    else if Eligible(zones[0], name) then Some(zones[0].id)
    else SelectZone(zones[1..], name)
  }

  /** The ids of all eligible zones, in listing order. */
  function EligibleIds(zones: seq<HostedZone>, name: string): (ids: seq<string>)
    ensures forall id :: id in ids <==> exists i :: 0 <= i < |zones| && Eligible(zones[i], name) && zones[i].id == id
  {
    if zones == [] then []
    else (if Eligible(zones[0], name) then [zones[0].id] else []) + EligibleIds(zones[1..], name)
  }

  /** `SelectZone` returns `None` exactly when no listed zone is eligible. */
  lemma {:induction false} SelectZoneNone(zones: seq<HostedZone>, name: string)
    ensures SelectZone(zones, name).None? <==> NoneEligible(zones, name)
  {
    if zones != [] {
      SelectZoneNone(zones[1..], name);
      assert forall i :: 1 <= i < |zones| ==> zones[i] == zones[1..][i - 1];
    }
  }

  /**
   * `SelectZone` returns `Some(id)` exactly when `id` is the id of the first
   * eligible zone of the listing.
   */
  lemma {:induction false} SelectZoneFirst(zones: seq<HostedZone>, name: string, id: string)
    ensures SelectZone(zones, name) == Some(id) <==>
            exists i :: FirstEligibleAt(zones, name, i) && zones[i].id == id
  {
    if zones == [] {
    } else if Eligible(zones[0], name) {
      assert FirstEligibleAt(zones, name, 0);
      forall i | FirstEligibleAt(zones, name, i) ensures i == 0 {
      }
    } else {
      var rest := zones[1..];
      SelectZoneFirst(rest, name, id);
      if SelectZone(zones, name) == Some(id) {
        var j :| FirstEligibleAt(rest, name, j) && rest[j].id == id;
        assert zones[..j + 1] == [zones[0]] + rest[..j];
        NoneEligibleCons(zones[0], rest[..j], name);
        assert FirstEligibleAt(zones, name, j + 1);
      }
      if i :| FirstEligibleAt(zones, name, i) && zones[i].id == id {
        assert i > 0;
        assert zones[..i] == [zones[0]] + rest[..i - 1];
        NoneEligibleCons(zones[0], rest[..i - 1], name);
        assert rest[i - 1] == zones[i];
        assert FirstEligibleAt(rest, name, i - 1);
      }
    }
  }

  /**
   * The selection agrees with an independent reference: the head of the
   * list of all eligible ids, if there is one.
   */
  lemma {:induction false} SelectZoneIsFirstEligibleId(zones: seq<HostedZone>, name: string)
    ensures SelectZone(zones, name) == if EligibleIds(zones, name) == [] then None else Some(EligibleIds(zones, name)[0])
  {
    if zones != [] {
      SelectZoneIsFirstEligibleId(zones[1..], name);
    }
  }

  /**
   * Listing order decides: zones after an eligible one are never looked at,
   * and zones before the first eligible one do not matter.
   */
  lemma {:induction false} SelectZoneAppend(front: seq<HostedZone>, back: seq<HostedZone>, name: string)
    ensures SelectZone(front + back, name) ==
            if SelectZone(front, name).Some? then SelectZone(front, name) else SelectZone(back, name)
  {
    if front == [] {
      assert front + back == back;
    } else {
      assert (front + back)[1..] == front[1..] + back;
      SelectZoneAppend(front[1..], back, name);
    }
  }

  /**
   * `get_zone_id`'s loop: walk the zones in order, return the id of the
   * first one whose name is the key and whose config says it is not
   * private; `None` when the listing runs out.
   */
  method GetZoneId(zones: seq<HostedZone>, name: string) returns (zoneId: Option<string>)
    ensures zoneId == SelectZone(zones, name)
    ensures zoneId.Some? ==> exists i :: FirstEligibleAt(zones, name, i) && zones[i].id == zoneId.value
    ensures zoneId.None? <==> NoneEligible(zones, name)
  {
    for k := 0 to |zones|
      invariant NoneEligible(zones[..k], name)
      invariant SelectZone(zones[k..], name) == SelectZone(zones, name)
    {
      var zone := zones[k];
      if zone.name == name {
        match zone.config {
          case Some(config) =>
            match config.privateZone {
              case Some(private) =>
                if !private {
                  assert FirstEligibleAt(zones, name, k);
                  return Some(zone.id);
                }
              case None =>
            }
          case None =>
        }
      }
      assert zones[k..][1..] == zones[k + 1..];
      assert zones[..k + 1] == zones[..k] + [zone];
    }
    assert zones[..|zones|] == zones;
    return None;
  }
}
