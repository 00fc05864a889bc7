// The sensor entry a device adaptor keeps for each sensor it serves
// (AdaptedSensorEntry, core/deviceadaptor.h).
module DeviceAdaptor {

  /** An AdaptedSensorEntry: its reference count and whether it is running. */
  datatype Entry = Entry(count: int, running: bool)
}
