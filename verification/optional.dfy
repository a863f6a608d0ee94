/** A value that may be absent: used for a parse that failed and for a lookup that found nothing. */
module Optional {

  datatype Option<+T> = None | Some(value: T)
}
