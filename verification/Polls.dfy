/**
 What one poll of the control ConfigMap delivers. The JSON text of its config.json is given
 in decoded form; `Unreadable` stands for text that encoding/json rejects.
 */
module Polls {
  import opened Wrappers

  /** A member of an entry: not mentioned (or null), of a wrong type, or given. */
  datatype Field<+T> = Omitted | Mistyped | Given(value: T)

  /**
   One user-defined injection as it is configured. A `value` of None is not mentioned; one of
   Some(None) is an explicit null.
   */
  datatype Entry =
    | NotAnObject
    | Object(op: Field<string>, path: Field<string>, value: Option<Option<map<string, string>>>)

  datatype Section<+T> = Absent | Unreadable | Readable(value: T)

  datatype ConfigMap =
    | NoFile
    | UnreadableFile
    | File(features: Section<map<string, bool>>, injections: Section<map<string, Entry>>)

  /** An API error other than "not found" skips the poll; a missing map reads as one without the file. */
  datatype Poll = ApiError | Fetched(config: ConfigMap)
}
