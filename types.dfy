/** Value types shared by every module of the model. */
module Types {
  /** One octet of an uploaded PDF or of a generated notebook. */
  newtype byte = x: int | 0 <= x < 256

  datatype Option<+T> = None | Some(value: T)
}
