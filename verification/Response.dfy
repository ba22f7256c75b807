/** Replies and their one-line text form. */
module Responses {
  import opened Wrappers

  /** Message::Fixed and Message::Custom differ only in who owns the text. */
  datatype Response = Response(code: nat, message: string, hasNext: bool) {
    function Extend(extension: string): Response {
      this.(message := message + ": " + extension)
    }

    /** The reply without its line end. An empty message loses the separator too. */
    function Line(): string {
      Decimal(code) + (if message == "" then "" else if hasNext then "-" else " ") + message
    }
  }

  function Decimal(n: nat): string {
    var digit := [('0' as int + n % 10) as char];
    if n < 10 then digit else Decimal(n / 10) + digit
  }

  function New(code: nat, message: string): Response { Response(code, message, false) }

  function NewContinued(code: nat, message: string): Response { Response(code, message, true) }

  function Banner(serverName: string): Response {
    New(220, "2.2.0 " + serverName + " ESMTP ready")
  }

  function SyntaxError(err: Option<string>): Response {
    New(500, if err.Some? then "5.5.2 Syntax error: " + err.value else "5.5.2 Syntax error")
  }

  const START_TLS := New(220, "2.0.0 Ready to start TLS")
  const GOODBYE := New(221, "2.0.0 Goodbye")
  const AUTH_OK := New(235, "2.7.0 Authentication succeeded")
  const OK := New(250, "2.0.0 OK")
  const RESET := New(250, "2.0.0 RESET")
  const MAIL_ACCEPTED := New(250, "2.0.0 Mail accepted")
  const AUTH_CHALLENGE_PLAIN := New(334, "")
  const AUTH_CHALLENGE_LOGIN_USERNAME := New(334, "VXNlcm5hbWU6")
  const AUTH_CHALLENGE_LOGIN_PASSWORD := New(334, "UGFzc3dvcmQ6")
  const DATA_START := New(354, "3.0.0 Start mail input; " + "end with <CRLF>.<CRLF>")
  const MAIL_HANDLER_ERROR := New(451, "4.3.0 Error during mail processing")
  const BAD_SEQUENCE := New(503, "5.5.1 Bad sequence of commands")
  const AUTH_REQUIRED := New(530, "5.7.0 Authentication required")
  const AUTH_FAIL := New(535, "5.7.8 Authentication failed")
  const DATA_TOO_LONG := New(552, "5.3.4 Mail size exceeds " + "fixed maximum message size")
}
