/** An optional value: an absent chat id, a missing stored id, or a round
    trip that resolved to nothing usable. */
module Options {

  datatype Option<+T> = None | Some(value: T)
}
