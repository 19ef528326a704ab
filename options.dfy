/** Optional values: a JavaScript `undefined`/`null` or an absent optional property. */
module Options {

  datatype Option<+T> = None | Some(value: T)
}
