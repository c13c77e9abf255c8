/** The HTTP side of a request the screens send: the method, chosen by add or edit mode. */
module Http {
  datatype Method = Get | Post | Put | Delete
}
