/** Which levels of a linked cloud have to be polled because it cannot push all their events. */
module SupportedEvents {
  import opened Records

  const ALL_DEVICES_EVENTS := ["devices_online", "devices_offline", "devices_registered", "devices_unregistered"]
  const ALL_DEVICE_EVENTS := ["resources_published", "resources_unpublished"]
  const ALL_RESOURCE_EVENTS := ["resource_contentchanged"]

  // Some event of `all` is not among the supported ones.
  ghost predicate MissesSome(all: seq<string>, supported: seq<string>) {
    exists ev :: ev in all && ev !in supported
  }

  ghost predicate PullsDevices(e: Events) { MissesSome(ALL_DEVICES_EVENTS, e.devices) }

  ghost predicate PullsDevice(e: Events) { MissesSome(ALL_DEVICE_EVENTS, e.device) && !e.staticDeviceEvents }

  ghost predicate PullsResources(e: Events) { MissesSome(ALL_RESOURCE_EVENTS, e.resource) }

  // Event by event.
  lemma EventNames(e: Events)
    ensures PullsDevices(e) <==>
            !("devices_online" in e.devices && "devices_offline" in e.devices
              && "devices_registered" in e.devices && "devices_unregistered" in e.devices)
    ensures PullsDevice(e) <==>
            !e.staticDeviceEvents && !("resources_published" in e.device && "resources_unpublished" in e.device)
    ensures PullsResources(e) <==> "resource_contentchanged" !in e.resource
  {
    assert ALL_DEVICES_EVENTS[0] == "devices_online" && ALL_DEVICES_EVENTS[1] == "devices_offline"
        && ALL_DEVICES_EVENTS[2] == "devices_registered" && ALL_DEVICES_EVENTS[3] == "devices_unregistered";
    assert ALL_DEVICE_EVENTS[0] == "resources_published" && ALL_DEVICE_EVENTS[1] == "resources_unpublished";
    assert ALL_RESOURCE_EVENTS[0] == "resource_contentchanged";
  }

  method MakeMap(evs: seq<string>) returns (m: map<string, bool>)
    ensures forall ev :: ev in m <==> ev in evs
  {
    m := map[];
    for i := 0 to |evs|
      invariant forall ev :: ev in m <==> ev in evs[..i]
    {
      m := m[evs[i] := true];
    }
  }

  // The loop shared by the three NeedPull functions: delete what is supported, see whether anything is left.
  method Unsupported(all: seq<string>, supported: seq<string>) returns (left: bool)
    ensures left <==> MissesSome(all, supported)
  {
    var events := MakeMap(all);
    for i := 0 to |supported|
      invariant forall ev :: ev in events <==> ev in all && ev !in supported[..i]
    {
      events := events - {supported[i]};
    }
    left := |events| != 0;
    if left {
      var ev :| ev in events;
    }
  }

  method NeedPullDevices(e: Events) returns (b: bool)
    ensures b <==> PullsDevices(e)
  {
    b := Unsupported(ALL_DEVICES_EVENTS, e.devices);
  }

  method NeedPullDevice(e: Events) returns (b: bool)
    ensures b <==> PullsDevice(e)
  {
    var left := Unsupported(ALL_DEVICE_EVENTS, e.device);
    if left {
      return !e.staticDeviceEvents;
    }
    return false;
  }

  method NeedPullResources(e: Events) returns (b: bool)
    ensures b <==> PullsResources(e)
  {
    b := Unsupported(ALL_RESOURCE_EVENTS, e.resource);
  }
}
