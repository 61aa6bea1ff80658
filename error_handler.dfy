/** The error reporter (`ErrorHandler`): choosing the user-facing message for an HTTP
    failure, and turning failures into error or warning notifications. The notifications
    it sends are recorded, in order, in `sent`. */
module Errors {
  import opened Js
  import opened Text
  import opened Seqs
  import opened Models
  import opened Notifications

  /** A failed HTTP call: `message` is `error.error.message` (`None` when the body or
      its message is absent), `status` the HTTP status (0 when there was no answer). */
  datatype HttpError = HttpError(message: Option<string>, status: int)

  const DefaultMessage := "An unexpected error occurred"

  /** The fixed message for a status, when it has one. */
  function StatusMessage(status: int): (r: Option<string>)
    ensures r.Some? <==> status in {0, 401, 403, 404, 422} || status >= 500
  {
    if status == 0 then Some("Unable to connect to server. Please check your connection.")
    else if status == 401 then Some("Authentication required. Please log in.")
    else if status == 403 then Some("You do not have permission to perform this action.")
    else if status == 404 then Some("The requested resource was not found.")
    else if status == 422 then Some("Validation failed. Please check your input.")
    else if status >= 500 then Some("Server error. Please try again later.")
    else None
  }

  /** The `userMessage` of `handleHttpError`: a (non-empty) message in the body wins;
      otherwise the status's fixed message; otherwise the default. */
  function UserMessage(e: HttpError): (r: string)
    ensures TruthyStr(e.message) ==> r == e.message.value
    ensures !TruthyStr(e.message) && StatusMessage(e.status).Some? ==> r == StatusMessage(e.status).value
    ensures !TruthyStr(e.message) && StatusMessage(e.status).None? ==> r == DefaultMessage
  {
    if TruthyStr(e.message) then e.message.value
    else if StatusMessage(e.status).Some? then StatusMessage(e.status).value
    else DefaultMessage
  }

  /** The body's message takes precedence over any status. */
  lemma MessageBeatsStatus(message: string, status1: int, status2: int)
    requires message != ""
    ensures UserMessage(HttpError(Some(message), status1)) == UserMessage(HttpError(Some(message), status2)) == message
  {
  }

  /** `context ? context + ': ' + msg : msg`. */
  function FullMessage(context: string, msg: string): (r: string)
    ensures context != "" ==> r == context + ": " + msg
    ensures context == "" ==> r == msg
  {
    if context != "" then context + ": " + msg else msg
  }

  /** The user message can be read back from the full message behind the context and
      its `': '`. */
  lemma FullMessageEndsWithMessage(context: string, msg: string)
    ensures FullMessage(context, msg)[|FullMessage(context, msg)| - |msg|..] == msg
    ensures context != "" ==> FullMessage(context, msg)[..|context|] == context
  {
    var r := FullMessage(context, msg);
    if context != "" {
      assert r == (context + ": ") + msg;
    }
  }

  /** `rule: message` for one compliance error. */
  function ErrorLine(e: ComplianceError): string
  {
    e.rule + ": " + e.message
  }

  /** The body of `handleComplianceError`: one line per error, in order, joined by
      newlines. */
  function ComplianceErrorText(errors: seq<ComplianceError>): string
  {
    Join(Map(errors, ErrorLine), "\n")
  }

  /** When no rule or message holds a newline, splitting the body at newlines gives the
      `rule: message` lines back, one per error, in order. */
  lemma ComplianceErrorTextLines(errors: seq<ComplianceError>)
    requires |errors| >= 1
    requires forall i :: 0 <= i < |errors| ==> '\n' !in errors[i].rule && '\n' !in errors[i].message
    ensures SplitOn(ComplianceErrorText(errors), '\n') == Map(errors, ErrorLine)
  {
    var lines := Map(errors, ErrorLine);
    forall i | 0 <= i < |lines| ensures '\n' !in lines[i] {
      assert lines[i] == errors[i].rule + ": " + errors[i].message;
    }
    SplitOnJoin(lines, '\n');
  }

  /** One call into the notification service. */
  datatype NotificationCall = NotificationCall(kind: NotificationType, title: string, message: string)

  class ErrorHandler {
    /** What has been sent to the notification service, oldest first. */
    var sent: seq<NotificationCall>

    constructor ()
      ensures sent == []
    {
      sent := [];
    }

    /** `handleHttpError`: sends the full message as one error titled `Error` and
        answers it; `context` defaults to `''`. */
    method HandleHttpError(e: HttpError, context: Option<string>) returns (fullMessage: string)
      modifies this
      ensures fullMessage == FullMessage(if context.Some? then context.value else "", UserMessage(e))
      ensures sent == old(sent) + [NotificationCall(Error, "Error", fullMessage)]
    {
      var ctx := if context.Some? then context.value else "";
      fullMessage := FullMessage(ctx, UserMessage(e));
      sent := sent + [NotificationCall(Error, "Error", fullMessage)];
    }

    /** `handleComplianceError`: nothing for no errors; otherwise one error notification
        titled by the context (`Compliance Check` by default) listing the errors. */
    method HandleComplianceError(errors: seq<ComplianceError>, context: Option<string>)
      modifies this
      ensures errors == [] ==> sent == old(sent)
      ensures errors != [] ==>
        sent == old(sent) + [NotificationCall(Error, if context.Some? then context.value else "Compliance Check", ComplianceErrorText(errors))]
    {
      if |errors| == 0 {
        return;
      }
      var title := if context.Some? then context.value else "Compliance Check";
      sent := sent + [NotificationCall(Error, title, ComplianceErrorText(errors))];
    }

    /** `handleValidationError`: one warning `field: message` titled `Validation Error`. */
    method HandleValidationError(field: string, message: string)
      modifies this
      ensures sent == old(sent) + [NotificationCall(Warning, "Validation Error", field + ": " + message)]
    {
      sent := sent + [NotificationCall(Warning, "Validation Error", field + ": " + message)];
    }
  }
}
