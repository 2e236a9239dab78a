/**
 * What a Flask view hands back: a JSON body with a status code, or an
 * exception that escapes the view (Flask then answers 500).
 */
module Responses {
  import opened Values

  datatype Reply = Json(status: int, body: Value) | Crash(reason: string)

  /** `jsonify({"success": False, "message": m}), status` */
  function Failure(status: int, message: string): (r: Reply)
    ensures r.Json? && r.status == status && Field(r.body, "message") == Str(message)
    ensures Field(r.body, "success") == Bool(false)
  {
    Json(status, Dict(map["success" := Bool(false), "message" := Str(message)]))
  }

  /** `jsonify({"error": m}), status` */
  function ErrorReply(status: int, message: string): (r: Reply)
    ensures r.Json? && r.status == status && Field(r.body, "error") == Str(message)
  {
    Json(status, Dict(map["error" := Str(message)]))
  }
}
