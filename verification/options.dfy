/** The optional value used for a cell's occupant and for neighbour lookups. */
module Options {

  datatype Option<+T> = None | Some(value: T)
}
