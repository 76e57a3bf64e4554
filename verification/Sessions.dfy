/** How a session of a recording is named on both sides: by its aircraft and its own id. Identifiers are
    numbers and 0 is the empty one. */
module Sessions {
  datatype Session = Session(aircraft: nat, id: nat)
  {
    predicate Known() { aircraft != 0 && id != 0 }
  }
}
