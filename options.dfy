/** The conventional optional value, used for lookups that may find nothing
    (a JavaScript `undefined`). */
module Options {

  datatype Option<T> = None | Some(value: T)

}
