/** Option and Result types shared by every module of the model. A `Result` is what a
    Python call either returns (`Ok`) or raises (`Err`, carrying `str(e)`). */
module Wrappers {

  datatype Option<+T> = None | Some(value: T)

  datatype Result<+T> = Ok(value: T) | Err(message: string)
}
