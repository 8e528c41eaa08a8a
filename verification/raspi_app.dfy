/** The older server (raspi/app.py): devices are kept in the in-memory dict
    `devices_dict`, name -> {'ip', 'r', 'g', 'b'}. A status PUT copies the colour
    keys present in the request, merges them into the device's entry and sends
    exactly those keys to the device. */
module RaspiApp {
  import opened Types

  /** One HTTP PUT: the device endpoint and the JSON body. */
  datatype PutRequest = PutRequest(url: string, body: map<string, int>)

  const Colours: seq<string> := ["r", "g", "b"]

  /** The colour keys of a request: those among r, g, b that it carries. */
  function Provided(request: map<string, int>): (s: map<string, int>)
    ensures s.Keys == request.Keys * {"r", "g", "b"}
    ensures forall c :: c in s ==> s[c] == request[c]
  {
    map c | c in request && c in {"r", "g", "b"} :: request[c]
  }

  /** `entry.update(status_dict)` for a status dict whose keys are colour keys: a
      provided key replaces that channel, everything else stays. */
  function Merge(e: ColorRow, statusDict: map<string, int>): ColorRow
  {
    ColorRow(e.ip, Rgb(if "r" in statusDict then statusDict["r"] else e.rgb.r,
                       if "g" in statusDict then statusDict["g"] else e.rgb.g,
                       if "b" in statusDict then statusDict["b"] else e.rgb.b))
  }

  /** The PUT handler's loop: copy each of r, g, b that the request carries. */
  method ColoursOf(request: map<string, int>) returns (statusDict: map<string, int>)
    ensures statusDict.Keys == request.Keys * {"r", "g", "b"}
    ensures forall c :: c in statusDict ==> statusDict[c] == request[c]
  {
    statusDict := map[];
    for i := 0 to |Colours|
      invariant forall c :: c in statusDict <==> c in request && c in Colours[..i]
      invariant forall c :: c in statusDict ==> statusDict[c] == request[c]
    {
      var colour := Colours[i];
      if colour in request {
        statusDict := statusDict[colour := request[colour]];
      }
    }
    assert Colours[..|Colours|] == ["r", "g", "b"];
  }

  /** Merging keeps the ip; each channel is the provided value when given and the old
      one otherwise. */
  lemma MergeOnlyProvided(e: ColorRow, request: map<string, int>)
    ensures var m := Merge(e, Provided(request));
      && m.ip == e.ip
      && m.rgb.r == (if "r" in request then request["r"] else e.rgb.r)
      && m.rgb.g == (if "g" in request then request["g"] else e.rgb.g)
      && m.rgb.b == (if "b" in request then request["b"] else e.rgb.b)
  {
  }

  /** Repeating the same PUT changes nothing more; a PUT carrying no colour changes
      nothing. */
  lemma MergeIdempotent(e: ColorRow, statusDict: map<string, int>)
    ensures Merge(Merge(e, statusDict), statusDict) == Merge(e, statusDict)
    ensures Merge(e, map[]) == e
  {
  }

  class App {
    var devices: map<string, ColorRow>

    /** Process start: `devices_dict = {}`. */
    constructor ()
      ensures devices == map[]
    {
      devices := map[];
    }

    /** POST /devices: a new name gets {'ip': ip, 'r': 0, 'g': 0, 'b': 0}; a known name
        leaves the dict untouched, ip included. */
    method RegisterDevice(name: string, ip: string) returns (reply: Reply)
      modifies this
      ensures name in old(devices) ==> reply == DeviceAlreadyExists && devices == old(devices)
      ensures name !in old(devices) ==> reply == DeviceCreated
                                        && devices == old(devices)[name := ColorRow(ip, Rgb(0, 0, 0))]
    {
      if name in devices {
        return DeviceAlreadyExists;
      }
      devices := devices[name := ColorRow(ip, Rgb(0, 0, 0))];
      reply := DeviceCreated;
    }

    /** GET /devices/<name>: the entry, or a KeyError for an unregistered name. */
    method DeviceStatusGet(name: string) returns (res: Outcome<ColorRow>)
      ensures res.Raised? <==> name !in devices
      ensures res.Raised? ==> res.exc == KeyError
      ensures res.Returned? ==> res.value == devices[name]
    {
      if name !in devices {
        return Raised(KeyError);
      }
      res := Returned(devices[name]);
    }

    /** PUT /devices/<name>: merge the provided colours into the entry, then send
        them to the device. An unregistered name raises KeyError before anything
        changes; a failed send raises after the merge. */
    method DeviceStatusPut(name: string, request: map<string, int>, net: Transport)
      returns (res: Outcome<Reply>, sent: Option<PutRequest>)
      modifies this
      ensures name !in old(devices) ==> res == Raised(KeyError) && sent == None && devices == old(devices)
      ensures name in old(devices) ==>
        && devices == old(devices)[name := Merge(old(devices)[name], Provided(request))]
        && sent == Some(PutRequest(Url(old(devices)[name].ip), Provided(request)))
        && res == (if net == Ok then Returned(StatusChanged) else Raised(TransportExc(net)))
    {
      var statusDict := ColoursOf(request);
      assert statusDict == Provided(request);
      if name !in devices {
        return Raised(KeyError), None;
      }
      devices := devices[name := Merge(devices[name], statusDict)];
      var r;
      sent, r := SetDeviceStatus(name, statusDict, net);
      res := Then(r, StatusChanged);
    }

    /** `set_device_status`: PUT the status dict to the device's endpoint; requests
        raises on a failed send. */
    method SetDeviceStatus(name: string, statusDict: map<string, int>, net: Transport)
      returns (sent: Option<PutRequest>, res: Outcome<()>)
      ensures name !in devices ==> sent == None && res == Raised(KeyError)
      ensures name in devices ==> sent == Some(PutRequest(Url(devices[name].ip), statusDict))
      ensures name in devices ==> (res.Raised? <==> net != Ok)
      ensures name in devices && net != Ok ==> res.exc == TransportExc(net)
    {
      if name !in devices {
        return None, Raised(KeyError);
      }
      var ip := devices[name].ip;
      var url := "http://" + ip + ":80/leds";
      sent := Some(PutRequest(url, statusDict));
      res := if net == Ok then Returned(()) else Raised(TransportExc(net));
    }
  }
}
