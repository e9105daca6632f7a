/** The errors the core throws, one constructor per `new Error(...)` site or
    failing runtime operation, with the message JavaScript gives each. */
module Failures {
  import opened Common

  datatype Failure =
    | ToolNotFound(tool: string)                 // `Tool ${toolName} not found`
    | ToolDisabled(tool: string)                 // `Tool ${toolName} is disabled`
    | FunctionNotFound(fn: string, tool: string) // `Function ${f} not found in tool ${t}`
    | NoConnection(tool: string)                 // `No connection available for tool ${t}`
    | NotEnabled(tool: string)                   // client manager: `Tool ${t} is not enabled`
    | HttpStatus(status: int, statusText: string)// `HTTP ${status}: ${statusText}`
    | NetworkError(message: string)              // `fetch` rejected
    | InvalidJson(message: string)               // `response.json()` rejected
    | TypeError(message: string)                 // a property read on null or undefined
    | Timeout                                    // 'Tool calls timeout'
    | ThrownUndefined                            // `throw lastError` before any attempt

  /** `error.message`; reading it from a thrown `undefined` throws itself. */
  function Message(f: Failure): Option<string> {
    match f
    case ToolNotFound(t) => Some("Tool " + t + " not found")
    case ToolDisabled(t) => Some("Tool " + t + " is disabled")
    case FunctionNotFound(fn, t) => Some("Function " + fn + " not found in tool " + t)
    case NoConnection(t) => Some("No connection available for tool " + t)
    case NotEnabled(t) => Some("Tool " + t + " is not enabled")
    case HttpStatus(status, text) => Some("HTTP " + IntToString(status) + ": " + text)
    case NetworkError(m) => Some(m)
    case InvalidJson(m) => Some(m)
    case TypeError(m) => Some(m)
    case Timeout => Some("Tool calls timeout")
    case ThrownUndefined => None
  }
}
