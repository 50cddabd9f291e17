// Small things several modules need.
module Common {
  datatype Option<T> = None | Some(value: T)

  function Bit(b: bool): nat { if b then 1 else 0 }
}
