/** Messages as the database, the server and the client-side router see them. Times and numeric
    payloads are real numbers. */
module Messages {

  const MOOS_NOTIFY: char := 'N'
  const MOOS_REGISTER: char := 'R'
  const MOOS_UNREGISTER: char := 'U'
  const MOOS_WILDCARD_REGISTER: char := '*'
  const MOOS_WILDCARD_UNREGISTER: char := '/'
  const MOOS_NULL_MSG: char := '.'
  const MOOS_SERVER_REQUEST: char := 'Q'
  const MOOS_TIMING: char := 'T'

  const MOOS_NOT_SET: char := '~'
  const MOOS_DOUBLE: char := 'D'
  const MOOS_STRING: char := 'S'
  const MOOS_BINARY_STRING: char := 'B'

  /** A wildcard subscription: patterns for the publishing application and the variable. */
  datatype MsgFilter = MsgFilter(app: string, var_: string, period: real)

  /** `filter` is what the database reads out of the string payload of a wildcard request. */
  datatype Msg = Msg(
    msgType: char,
    dataType: char,
    key: string,
    time: real,
    number: real,
    number2: real,
    text: string,
    src: string,
    srcAux: string,
    community: string,
    filter: MsgFilter
  )

  /** A freshly constructed message. */
  const BLANK := Msg(MOOS_NULL_MSG, MOOS_DOUBLE, "", -1.0, -1.0, -1.0, "", "", "", "", MsgFilter("", "", 0.0))
}
