/** The device catalogue of internal/registry/registry.go. */
module Registry {
  import opened Protocol
  import T = BrokerTables

  /** `conn` stands for the attachment whose `register` frame and remote address filled the record. */
  datatype Device = Device(id: DeviceId, name: string, os: string, addr: string, pubKey: Bytes, conn: ConnId)

  function Adders(devices: map<DeviceId, Device>): map<DeviceId, ConnId> {
    map d | d in devices :: devices[d].conn
  }

  class Registry {
    const cloud: string
    var devices: map<DeviceId, Device>

    constructor (cloud: string)
      ensures this.cloud == cloud && devices == map[]
    {
      this.cloud := cloud;
      devices := map[];
    }

    method Add(d: Device)
      modifies this
      ensures devices == old(devices)[d.id := d]
      ensures Adders(devices) == T.Add(Adders(old(devices)), d.id, d.conn)
    {
      devices := devices[d.id := d];
    }

    method Remove(id: DeviceId)
      modifies this
      ensures devices == old(devices) - {id}
      ensures Adders(devices) == T.Remove(Adders(old(devices)), id)
    {
      devices := devices - {id};
    }

    method Get(id: DeviceId) returns (d: Option<Device>)
      ensures d.Some? <==> id in devices
      ensures d.Some? ==> d.value == devices[id]
    {
      if id in devices { d := Some(devices[id]); } else { d := None; }
    }
  }
}
