/** nanoleafapi.AuroraMetadata: the host name, port, device id and device name of a
    discovered device, read from an SSDP reply or from an mDNS instance. */
module AuroraMetadatas {
  import opened Wrappers
  import opened JavaText

  class AuroraMetadata {
    var hostName: Option<string>
    var port: Int32
    var deviceId: Option<string>
    var deviceName: Option<string>

    /** new AuroraMetadata(hostName, port, deviceId, deviceName). */
    constructor(hostName: Option<string>, port: Int32, deviceId: Option<string>, deviceName: Option<string>)
      ensures this.hostName == hostName && this.port == port
      ensures this.deviceId == deviceId && this.deviceName == deviceName
    {
      this.hostName := hostName;
      this.port := port;
      this.deviceId := deviceId;
      this.deviceName := deviceName;
    }

    method SetHostName(hostName: Option<string>)
      modifies this
      ensures this.hostName == hostName
      ensures port == old(port) && deviceId == old(deviceId) && deviceName == old(deviceName)
    {
      this.hostName := hostName;
    }

    method SetPort(port: Int32)
      modifies this
      ensures this.port == port
      ensures hostName == old(hostName) && deviceId == old(deviceId) && deviceName == old(deviceName)
    {
      this.port := port;
    }

    method SetDeviceId(deviceId: Option<string>)
      modifies this
      ensures this.deviceId == deviceId
      ensures hostName == old(hostName) && port == old(port) && deviceName == old(deviceName)
    {
      this.deviceId := deviceId;
    }

    method SetDeviceName(deviceName: Option<string>)
      modifies this
      ensures this.deviceName == deviceName
      ensures hostName == old(hostName) && port == old(port) && deviceId == old(deviceId)
    {
      this.deviceName := deviceName;
    }
  }

  // ---------------------------------------------------------------- fromSSDPPacketData

  /** The three headers the slicing looks for. */
  const LOCATION: string := "Location:"
  const DEVICE_ID: string := "nl-deviceid:"
  const DEVICE_NAME: string := "nl-devicename:"

  /** The four values fromSSDPPacketData reads. */
  datatype Device = Device(hostName: string, port: Int32, deviceId: string, deviceName: string)

  /** The slicing of fromSSDPPacketData on the trimmed reply d: the address runs from
      17 characters after "Location:" to 2 before "nl-deviceid:" and is split at ':'
      into host and port; the device id runs from 13 after "nl-deviceid:" to 2 before
      "nl-devicename:"; the device name from 15 after "nl-devicename:" to just before
      the last character. A bad range, a missing port field or a port that is not an
      int throws, in the order the source evaluates them. */
  function SsdpDevice(data: string): (r: Result<Device>)
    ensures r.Err? ==> r.error == IndexOutOfBounds || r.error == NumberFormat
  {
    SsdpSlices(Trim(data))
  }

  /** The slicing, on text already trimmed. */
  function SsdpSlices(d: string): (r: Result<Device>)
    ensures r.Err? ==> r.error == IndexOutOfBounds || r.error == NumberFormat
  {
    SliceAt(d, IndexOf(d, LOCATION), IndexOf(d, DEVICE_ID), IndexOf(d, DEVICE_NAME))
  }

  /** The slicing, given where "Location:", "nl-deviceid:" and "nl-devicename:" were
      found. */
  function SliceAt(d: string, location: int, ids: int, names: int): (r: Result<Device>)
    ensures r.Err? ==> r.error == IndexOutOfBounds || r.error == NumberFormat
  {
    var addressText :- Substring(d, location + 17, ids - 2);
    var address := Split(addressText, ':');
    if |address| < 1 then Err(IndexOutOfBounds)
    else
      var ip := address[0];
      if |address| < 2 then Err(IndexOutOfBounds)
      else if ParseInt(address[1]).None? then Err(NumberFormat)
      else
        var port := ParseInt(address[1]).value;
        var deviceId :- Substring(d, ids + 13, names - 2);
        var deviceName :- Substring(d, names + 15, |d| - 1);
        Ok(Device(ip, port, deviceId, deviceName))
  }

  /** The reply is trimmed first, so surrounding white space changes nothing. */
  lemma SsdpDeviceTrimmed(data: string)
    ensures SsdpDevice(Trim(data)) == SsdpDevice(data)
  {
    TrimUntouched(Trim(data));
  }

  /** AuroraMetadata.fromSSDPPacketData(data). */
  method FromSsdpPacketData(data: string) returns (r: Result<AuroraMetadata>)
    ensures r.Ok? <==> SsdpDevice(data).Ok?
    ensures r.Ok? ==> fresh(r.value)
    ensures r.Ok? ==> var dev := SsdpDevice(data).value;
      r.value.hostName == Some(dev.hostName) && r.value.port == dev.port &&
      r.value.deviceId == Some(dev.deviceId) && r.value.deviceName == Some(dev.deviceName)
    ensures r.Err? ==> r.error == SsdpDevice(data).error
  {
    var metadata := new AuroraMetadata(None, 0, None, None);
    var device := SsdpDevice(data);
    if device.Err? {
      return Err(device.error);
    }
    metadata.SetHostName(Some(device.value.hostName));
    metadata.SetPort(device.value.port);
    metadata.SetDeviceId(Some(device.value.deviceId));
    metadata.SetDeviceName(Some(device.value.deviceName));
    return Ok(metadata);
  }

  /** A reply laid out as the slicing expects: any leading text, then
      "Location: http://host:port", a line break, "nl-deviceid: id", a line break,
      "nl-devicename: name" and one closing character. */
  function SsdpReply(head: string, host: string, port: string, id: string, name: string, last: char): string
  {
    head + ("Location:" + (" http://" + (host + (":" + (port + ("\r\n" +
      ("nl-deviceid:" + (" " + (id + ("\r\n" + ("nl-devicename:" + (" " + (name + [last])))))))))))))
  }

  lemma Associative<T>(a: seq<T>, b: seq<T>, c: seq<T>)
    ensures a + (b + c) == (a + b) + c
  {
  }

  lemma SplitAddress(host: string, port: string)
    requires ':' !in host && ':' !in port && port != ""
    ensures Split(host + ":" + port, ':') == [host, port]
  {
    assert (host + ":" + port)[|host|] == ':';
    FieldsAfterSep(host, ':', port);
    FieldsWithoutSep(port, ':');
  }

  lemma LocationAt(head: string, host: string, port: string, id: string, name: string, last: char)
    requires 'L' !in head
    ensures IndexOf(SsdpReply(head, host, port, id, name, last), LOCATION) == |head|
  {
    var rest := " http://" + (host + (":" + (port + ("\r\n" +
      ("nl-deviceid:" + (" " + (id + ("\r\n" + ("nl-devicename:" + (" " + (name + [last])))))))))));
    IndexOfByChar(head, LOCATION, rest, 0);
  }

  lemma DeviceIdAt(head: string, host: string, port: string, id: string, name: string, last: char)
    requires 'v' !in head && 'v' !in host && 'v' !in port
    ensures IndexOf(SsdpReply(head, host, port, id, name, last), DEVICE_ID) == |head| + 20 + |host| + |port|
  {
    var r7 := " " + (id + ("\r\n" + ("nl-devicename:" + (" " + (name + [last])))));
    var r6 := "nl-deviceid:" + r7;
    var a := head;
    Associative(a, "Location:", " http://" + (host + (":" + (port + ("\r\n" + r6)))));
    a := a + "Location:";
    Associative(a, " http://", host + (":" + (port + ("\r\n" + r6))));
    a := a + " http://";
    Associative(a, host, ":" + (port + ("\r\n" + r6)));
    a := a + host;
    Associative(a, ":", port + ("\r\n" + r6));
    a := a + ":";
    Associative(a, port, "\r\n" + r6);
    a := a + port;
    Associative(a, "\r\n", r6);
    a := a + "\r\n";
    assert SsdpReply(head, host, port, id, name, last) == a + r6;
    IndexOfByChar(a, DEVICE_ID, r7, 5);
  }

  lemma DeviceNameAt(head: string, host: string, port: string, id: string, name: string, last: char)
    requires 'm' !in head && 'm' !in host && 'm' !in port && 'm' !in id
    ensures IndexOf(SsdpReply(head, host, port, id, name, last), DEVICE_NAME) == |head| + 35 + |host| + |port| + |id|
  {
    var r11 := " " + (name + [last]);
    var r10 := "nl-devicename:" + r11;
    var a := head;
    Associative(a, "Location:", " http://" + (host + (":" + (port + ("\r\n" +
      ("nl-deviceid:" + (" " + (id + ("\r\n" + r10)))))))));
    a := a + "Location:";
    Associative(a, " http://", host + (":" + (port + ("\r\n" + ("nl-deviceid:" + (" " + (id + ("\r\n" + r10))))))));
    a := a + " http://";
    Associative(a, host, ":" + (port + ("\r\n" + ("nl-deviceid:" + (" " + (id + ("\r\n" + r10)))))));
    a := a + host;
    Associative(a, ":", port + ("\r\n" + ("nl-deviceid:" + (" " + (id + ("\r\n" + r10))))));
    a := a + ":";
    Associative(a, port, "\r\n" + ("nl-deviceid:" + (" " + (id + ("\r\n" + r10)))));
    a := a + port;
    Associative(a, "\r\n", "nl-deviceid:" + (" " + (id + ("\r\n" + r10))));
    a := a + "\r\n";
    Associative(a, "nl-deviceid:", " " + (id + ("\r\n" + r10)));
    a := a + "nl-deviceid:";
    Associative(a, " ", id + ("\r\n" + r10));
    a := a + " ";
    Associative(a, id, "\r\n" + r10);
    a := a + id;
    Associative(a, "\r\n", r10);
    a := a + "\r\n";
    assert SsdpReply(head, host, port, id, name, last) == a + r10;
    IndexOfByChar(a, DEVICE_NAME, r11, 11);
  }

  /** The three fields sit where the slicing cuts. */
  lemma ReplySlices(head: string, host: string, port: string, id: string, name: string, last: char)
    ensures var d := SsdpReply(head, host, port, id, name, last);
      var p := |head| + 17;
      var q := p + |host| + 1 + |port| + 15;
      |d| == q + |id| + 17 + |name| + 1 && d[|d| - 1] == last &&
      d[p..p + |host| + 1 + |port|] == host + ":" + port &&
      d[q..q + |id|] == id && d[q + |id| + 17..|d| - 1] == name
  {
  }

  /** The slicing of a text whose headers and fields sit at the given places. */
  lemma SlicesOf(d: string, location: int, ids: int, names: int, host: string, port: string, id: string, name: string)
    requires 0 <= location + 17 <= ids - 2 <= |d| && Split(d[location + 17..ids - 2], ':') == [host, port]
    requires 0 <= ids + 13 <= names - 2 <= |d| && d[ids + 13..names - 2] == id
    requires 0 <= names + 15 <= |d| - 1 && d[names + 15..|d| - 1] == name
    ensures SliceAt(d, location, ids, names) ==
      if ParseInt(port).Some? then Ok(Device(host, ParseInt(port).value, id, name)) else Err(NumberFormat)
  {
  }

  lemma ReplyTrimmed(head: string, host: string, port: string, id: string, name: string, last: char)
    requires head != [] ==> !IsTrimmed(head[0])
    requires !IsTrimmed(last)
    ensures SsdpDevice(SsdpReply(head, host, port, id, name, last)) == SsdpSlices(SsdpReply(head, host, port, id, name, last))
  {
    var d := SsdpReply(head, host, port, id, name, last);
    assert d[0] == if head != [] then head[0] else 'L';
    assert d[|d| - 1] == last;
    TrimUntouched(d);
  }

  /** The slicing of a text whose headers are found at the given places. */
  lemma SlicedAt(d: string, location: int, ids: int, names: int)
    requires IndexOf(d, LOCATION) == location
    requires IndexOf(d, DEVICE_ID) == ids && IndexOf(d, DEVICE_NAME) == names
    ensures SsdpSlices(d) == SliceAt(d, location, ids, names)
  {
  }

  /** fromSSDPPacketData on a reply laid out as SsdpReply writes it gives back host,
      device id and device name, and the port when its field is an int, a
      NumberFormatException otherwise. This holds when the leading text does not start
      with white space and has none of 'L', 'v' and 'm', host and port have none of
      ':', 'v' and 'm', the port field is not empty, the device id has no 'm' and the
      closing character is not white space. */
  lemma SsdpRoundTrip(head: string, host: string, port: string, id: string, name: string, last: char)
    requires head != [] ==> !IsTrimmed(head[0])
    requires 'L' !in head && 'v' !in head && 'm' !in head
    requires ':' !in host && 'v' !in host && 'm' !in host
    requires ':' !in port && 'v' !in port && 'm' !in port && port != ""
    requires 'm' !in id && !IsTrimmed(last)
    ensures SsdpDevice(SsdpReply(head, host, port, id, name, last)) ==
      if ParseInt(port).Some? then Ok(Device(host, ParseInt(port).value, id, name)) else Err(NumberFormat)
  {
    ReplyTrimmed(head, host, port, id, name, last);
    ReplyHeaders(head, host, port, id, name, last);
    ReplyFields(head, host, port, id, name, last);
  }

  /** An SsdpReply is sliced at the places its headers sit. */
  lemma ReplyHeaders(head: string, host: string, port: string, id: string, name: string, last: char)
    requires 'L' !in head && 'v' !in head && 'm' !in head
    requires 'v' !in host && 'm' !in host && 'v' !in port && 'm' !in port && 'm' !in id
    ensures SsdpSlices(SsdpReply(head, host, port, id, name, last)) ==
      SliceAt(SsdpReply(head, host, port, id, name, last), |head|,
              |head| + 20 + |host| + |port|, |head| + 35 + |host| + |port| + |id|)
  {
    LocationAt(head, host, port, id, name, last);
    DeviceIdAt(head, host, port, id, name, last);
    DeviceNameAt(head, host, port, id, name, last);
    SlicedAt(SsdpReply(head, host, port, id, name, last), |head|,
             |head| + 20 + |host| + |port|, |head| + 35 + |host| + |port| + |id|);
  }

  /** Slicing an SsdpReply at those places gives back its fields. */
  lemma ReplyFields(head: string, host: string, port: string, id: string, name: string, last: char)
    requires ':' !in host && ':' !in port && port != ""
    ensures SliceAt(SsdpReply(head, host, port, id, name, last), |head|,
                    |head| + 20 + |host| + |port|, |head| + 35 + |host| + |port| + |id|) ==
      if ParseInt(port).Some? then Ok(Device(host, ParseInt(port).value, id, name)) else Err(NumberFormat)
  {
    ReplySlices(head, host, port, id, name, last);
    SplitAddress(host, port);
    SlicesOf(SsdpReply(head, host, port, id, name, last), |head|,
             |head| + 20 + |host| + |port|, |head| + 35 + |host| + |port| + |id|, host, port, id, name);
  }

  /** The same for the replies a device sends, whose port field is Integer.toString of
      a port number. */
  lemma SsdpPortRoundTrip(head: string, dev: Device, last: char)
    requires head != [] ==> !IsTrimmed(head[0])
    requires 'L' !in head && 'v' !in head && 'm' !in head
    requires ':' !in dev.hostName && 'v' !in dev.hostName && 'm' !in dev.hostName
    requires 'm' !in dev.deviceId && !IsTrimmed(last)
    ensures SsdpDevice(SsdpReply(head, dev.hostName, IntToString(dev.port), dev.deviceId, dev.deviceName, last)) == Ok(dev)
  {
    var port := IntToString(dev.port);
    assert forall i :: 0 <= i < |port| ==> port[i] == '-' || IsDigit(port[i]);
    ParseIntToString(dev.port);
    SsdpRoundTrip(head, dev.hostName, port, dev.deviceId, dev.deviceName, last);
  }

  // ---------------------------------------------------------------- fromMDNSInstance

  /** What fromMDNSInstance reads of an InetAddress: the name its reverse lookup gives
      (getHostName) and its literal address (getHostAddress). */
  datatype InetAddress = InetAddress(hostName: string, hostAddress: string)

  /** AuroraMetadata.fromMDNSInstance(instance), given the instance's addresses in the
      order its iterator yields them, its port and its name: the host name of the first
      address and the literal of the second; fewer than two addresses is a
      NoSuchElementException. */
  method FromMdnsInstance(addresses: seq<InetAddress>, port: Int32, name: string) returns (r: Result<AuroraMetadata>)
    ensures r.Ok? <==> |addresses| >= 2
    ensures r.Ok? ==> fresh(r.value)
    ensures r.Ok? ==> r.value.hostName == Some(addresses[0].hostName) && r.value.port == port
    ensures r.Ok? ==> r.value.deviceId == Some(addresses[1].hostAddress) && r.value.deviceName == Some(name)
    ensures r.Err? ==> r.error == NoSuchElement
  {
    var metadata := new AuroraMetadata(None, 0, None, None);
    if |addresses| < 1 {
      return Err(NoSuchElement);
    }
    metadata.SetHostName(Some(addresses[0].hostName));
    metadata.SetPort(port);
    if |addresses| < 2 {
      return Err(NoSuchElement);
    }
    metadata.SetDeviceId(Some(addresses[1].hostAddress));
    metadata.SetDeviceName(Some(name));
    return Ok(metadata);
  }
}
