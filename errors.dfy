/** The exceptions raised by the bot's core, as tags instead of Python exception objects. */
module Errors {

  /** The Python exception class a failure is raised as. */
  datatype PyException = TypeError | KeyError | NoAPIAnswer | Exception

  /** Every way a poll cycle can fail before it reaches the chat. */
  datatype Error =
    /** The API answered with a status code other than 200 (homework.py:91-98). */
    | BadAnswer
    /** The request failed or its body was not JSON (homework.py:100-103). */
    | UrlUnreachable
    /** The decoded body is not a dict (homework.py:108-111). */
    | ResponseNotDict
    /** The body's "homeworks" entry is absent or not a list (homework.py:112-115). */
    | HomeworksNotList
    /** A homework record lacks a required key (homework.py:121-125). */
    | MissingKey(key: string)
    /** The record's status is not a key of the verdict table (homework.py:127-130). */
    | UnexpectedStatus
    /** Python's `in` applied to a value that is not a container (`None`, a bool, an int). */
    | NotIterable(typeName: string)
    /** A str or a list indexed with a str key. */
    | NonIntegerIndex(typeName: string)
    /** A list or dict used as a dict key. */
    | Unhashable(typeName: string)

  /** The Python exception class each failure is raised as. */
  function Kind(e: Error): PyException
  {
    match e
    case BadAnswer => NoAPIAnswer
    case UrlUnreachable => Exception
    case MissingKey(_) => KeyError
    case UnexpectedStatus => KeyError
    case _ => TypeError
  }
}
