/** The `undefined`-or-value results of the store's lookups and guarded updates. */
module Options {

  datatype Option<+T> = None | Some(value: T)
}
