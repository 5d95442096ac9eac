/** The Express error-handling middleware: the status and JSON body built from a thrown
    error and the NODE_ENV setting. */
module ErrorHandler {
  import opened JsValues

  const DefaultMessage: string := "Internal Server Error"

  /** A reply whose status is whatever `err.status || 500` yields. */
  datatype ErrorResponse = ErrorResponse(status: JsValue, body: map<string, JsValue>)

  /** The handler for an error `err` (Express calls it only with a truthy one): the
      status is `err.status` when truthy and 500 otherwise, `error` is `err.message`
      when truthy and the default message otherwise, and `stack` is added exactly in
      development. */
  function HandleError(err: JsValue, nodeEnv: Option<string>): (r: ErrorResponse)
    requires Truthy(err)
    ensures Truthy(Prop(err, "status").value) ==> r.status == Prop(err, "status").value
    ensures !Truthy(Prop(err, "status").value) ==> r.status == Num(500)
    ensures "error" in r.body
    ensures Truthy(Prop(err, "message").value) ==> r.body["error"] == Prop(err, "message").value
    ensures !Truthy(Prop(err, "message").value) ==> r.body["error"] == Str(DefaultMessage)
    ensures "stack" in r.body <==> nodeEnv == Some("development")
    ensures "stack" in r.body ==> r.body["stack"] == Prop(err, "stack").value
    ensures r.body.Keys <= {"error", "stack"}
  {
    var base := map["error" := Or(Prop(err, "message").value, Str(DefaultMessage))];
    var body := if nodeEnv == Some("development") then base["stack" := Prop(err, "stack").value] else base;
    ErrorResponse(Or(Prop(err, "status").value, Num(500)), body)
  }

  /** Whatever the error, the reply has a truthy status and a non-empty error field,
      and outside development it never carries the stack. */
  lemma ErrorReplyAlwaysInformative(err: JsValue, nodeEnv: Option<string>)
    requires Truthy(err)
    ensures Truthy(HandleError(err, nodeEnv).status)
    ensures Truthy(HandleError(err, nodeEnv).body["error"])
    ensures nodeEnv != Some("development") ==> HandleError(err, nodeEnv).body.Keys == {"error"}
  {
  }
}
