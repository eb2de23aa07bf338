/**
 * Which transports the installed package supports. In the library these are
 * the flags `IP_TRANSPORT_SUPPORTED` and `BLE_TRANSPORT_SUPPORTED`, fixed by
 * which optional dependencies could be imported.
 */
module Support {

  datatype Transports = Transports(ip: bool, ble: bool)
}
