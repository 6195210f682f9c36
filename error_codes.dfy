/** The table from application status codes to the JSON reply
    `{success, error, code}` and the HTTP status it is sent with. */
module ErrorCodes {

  /** What `RespondWithStatus` sends: `success` is the string "true" or
      "false", `message` goes out under the key `error`, and `code` echoes
      the application code. */
  datatype StatusReply = StatusReply(success: string, message: string, httpStatus: int, code: int)

  /** The codes the switch names explicitly. */
  const Listed: set<int> := {200, -1, -2, -3, -4, -5, -6, -7, -8, -9, -10, -11, -12, -13, -500}

  /** `RespondWithStatus`: a total map from code to reply. */
  function RespondWithStatus(code: int): (r: StatusReply)
    ensures r.code == code
    ensures r.success == "true" <==> code == 200
    ensures r.success == "false" <==> code != 200
    ensures code == 200 ==> r == StatusReply("true", "OK", 200, 200)
    ensures r.httpStatus == 200 <==> code == 200
    ensures r.httpStatus == 401 <==> code == -1 || code == -3
    ensures r.httpStatus == 403 <==> code == -2
    ensures r.httpStatus == 400 <==> code == -5
    ensures r.httpStatus == 404 <==> code in {-4, -7, -9, -11, -13}
    ensures r.httpStatus == 409 <==> code in {-6, -8, -10, -12}
    ensures r.httpStatus == 500 <==> code == -500 || code !in Listed
    ensures r.message == "Unknown error" <==> code !in Listed
  {
    var (success, message, status) :=
      match code
      case 200 => ("true", "OK", 200)
      case -1 => ("false", "Invalid credentials", 401)
      case -2 => ("false", "User is disabled", 403)
      case -3 => ("false", "Unauthorized, you need to connect first!", 401)
      case -4 => ("false", "No data found!", 404)
      case -5 => ("false", "Invalid request. 'id' parameter is required.", 400)
      case -6 => ("false", "Zone ID already exists!", 409)
      case -7 => ("false", "Zone ID not found!", 404)
      case -8 => ("false", "Camera ID already exists!", 409)
      case -9 => ("false", "Camera ID not found!", 404)
      case -10 => ("false", "Sign ID already exists!", 409)
      case -11 => ("false", "Sign ID not found!", 404)
      case -12 => ("false", "Client ID already exists!", 409)
      case -13 => ("false", "Client ID not found!", 404)
      case -500 => ("false", "An unexpected error occurred. Please try again later.", 500)
      case _ => ("false", "Unknown error", 500);
    StatusReply(success, message, status, code)
  }

  /** Each listed code has a message of its own, so the message of a reply
      identifies the listed code it came from. */
  lemma MessagesIdentifyCodes(a: int, b: int)
    requires a in Listed && b in Listed
    requires RespondWithStatus(a).message == RespondWithStatus(b).message
    ensures a == b
  {
  }
}
