/** An optional value: `None` stands for PHP's `null`. */
module Options {
  datatype Option<+T> = None | Some(value: T)
}
