/** The states of a connection, which its own methods and the server's machine share. */
module ConnectionStates {

  datatype StateE = Connecting | Connected | Disconnecting | Disconnected
}
