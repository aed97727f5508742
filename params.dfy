/** The POST-field hash that the client builds and augments in place. */
module Params {
  import opened Wrappers

  /** Field name to value; `None` is a field whose value is nil. */
  type ParamMap = map<string, Option<string>>

  /** A Ruby Hash of POST fields, shared by reference between the mailer,
      which fills it, and the client, which adds the protocol fields to it. */
  class ParamHash {
    var entries: ParamMap

    /** A hash literal. */
    constructor (initial: ParamMap)
      ensures entries == initial
    {
      entries := initial;
    }

    /** `hash[key] = value`: adds the key or overwrites its value. */
    method Store(key: string, value: Option<string>)
      modifies this
      ensures entries == old(entries)[key := value]
    {
      entries := entries[key := value];
    }
  }
}
