/**
 * What a screen gets back from `fetch`: the request itself can throw, or a response arrives
 * with its `ok` flag, its status code and the outcome of reading its body with
 * `response.json()`.
 */
module Http {
  import opened Wrappers
  import opened JsValues

  datatype Reply =
    | Thrown(message: string)
    | Answered(ok: bool, status: int, body: Result<JsValue>)
}
