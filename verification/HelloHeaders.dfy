/** The hello headers the two ends exchange, and how they are read (message.go). */
module HelloHeaders {
  import opened Bytes
  import opened HeaderBlock

  const CONNECTION_ID_HEADER: I32 := 0
  const RESULT_SUCCESS_HEADER: I32 := 2
  const TYPE_HEADER: I32 := 7
  const ID_HEADER: I32 := 8
  const IS_GROUPED_HEADER: I32 := 9
  const GROUP_SECRET_HEADER: I32 := 10
  const IS_FIRST_HEADER: I32 := 11

  const HELLO_CONTENT: I32 := 0
  const RESULT_CONTENT: I32 := 2
  const HELLO_SEQUENCE: I32 := -1

  /** A missing header reads as the empty one. */
  function Lookup(headers: Headers, key: I32): bytes {
    if key in headers then headers[key] else []
  }

  /** A boolean header is true when its first byte is one. */
  predicate Flag(headers: Headers, key: I32) {
    |Lookup(headers, key)| > 0 && headers[key][0] == 1
  }
}
