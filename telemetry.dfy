/** The dashboard telemetry packet an action receives on each poll: a log of
    key/value puts. It is a side channel; nothing reads it back. */
module Telemetry {

  /** One `packet.put(key, value)`. */
  datatype Entry = Entry(key: string, value: real)

  class Packet {
    var entries: seq<Entry>

    constructor ()
      ensures entries == []
    {
      entries := [];
    }

    /** Appends one key/value pair. */
    method Put(key: string, value: real)
      modifies this
      ensures entries == old(entries) + [Entry(key, value)]
    {
      entries := entries + [Entry(key, value)];
    }
  }
}
