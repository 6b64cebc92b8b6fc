/** An optional value: the `null` / `undefined` of the accessory's JavaScript. */
module Options {

  datatype Option<+T> = None | Some(value: T)
}
