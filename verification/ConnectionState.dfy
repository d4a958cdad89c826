/** The states a connection goes through, whatever its transport. */
module ConnectionStates {
  datatype ConnectionState = DISCONNECTED | CONNECTING | CONNECTED | DISCONNECTING
}
