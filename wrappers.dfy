/** Python's `None`-or-value, as used for `VoiceMessage.transcribed_text` and for SQLite's nullable column. */
module Wrappers {

  datatype Option<+T> = None | Some(value: T)
}
