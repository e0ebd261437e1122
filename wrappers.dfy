/** The optional value used wherever the bot's JavaScript reads `undefined`. */
module Wrappers {

  datatype Option<+T> = None | Some(value: T)
}
