/** The response descriptor a session hands to a transform, and the status codes the client names. */
module Http {

  const OK: int := 200
  const MULTI: int := 207
  const BAD_REQUEST: int := 400
  const UNAUTHORIZED: int := 401
  const NOT_FOUND: int := 404
  const UNPROCESSABLE: int := 422
  const INTERNAL: int := 500

  /** One HTTP response: status code, header map and (already decompressed) body text. */
  datatype HttpResult = HttpResult(code: int, headers: map<string, string>, body: string)
}
