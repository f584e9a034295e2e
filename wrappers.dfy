/** The optional value used throughout the model: `None` stands for
    JavaScript's `null` or `undefined` where a result may be absent. */
module Wrappers {

  datatype Option<+T> = None | Some(value: T)
}
