/** Request parsing and the ticket/response construction shared by both
    generations of handlers (asker/commands.go), the parsing of the `link`
    command (asker/client.go, asker/server.go), and the reply texts both
    generations use. Requests arrive already decoded from the form or the
    JSON payload; only the checks and changes made after decoding are
    modelled. */
module Commands {
  import opened Results
  import opened Text
  import opened Storage
  import opened Dialogs
  import opened Jira

  datatype SlackTeam = SlackTeam(Id: string, Domain: string)

  datatype SlackTuple = SlackTuple(Id: string, Name: string)

  /** A dialog submission; `Timestamp` is the payload's `action_ts` text. */
  datatype InteractiveRequest = InteractiveRequest(
    Type: string,
    Submission: map<string, string>,
    CallbackID: string,
    Team: SlackTeam,
    User: SlackTuple,
    Channel: SlackTuple,
    Timestamp: string,
    Token: string)

  datatype TicketRequest = TicketRequest(
    Username: string,
    ProjectKey: string,
    Summary: string,
    Description: string,
    Priority: string,
    Components: seq<string>)

  /** The message posted back to the command's response URL; its attachments
      are always empty and are not modelled. */
  datatype SlackResponseResult = SlackResponseResult(ResponseType: string, Text: string)

  /** What an HTTP handler writes: a status code and a body. */
  datatype Reply = Reply(status: int, body: string)

  /** What an outbound HTTP request came back with: a transport error, or a
      response with its status code and status line. */
  datatype HttpOutcome = TransportError(err: string) | Response(statusCode: int, status: string)

  // ---------------------------------------------------------------------------
  // Parsing: the checks made after decoding

  const InvalidTokenMessage: string :=
    "Invalid token, check configuration or ensure someone isn't sending you bogus data"

  const InvalidDialogTokenMessage: string :=
    "Invalid token on dialog submission, check configuration or ensure someone isn't sending you bogus data"

  /** A decoded slash command is accepted only with the configured token, and
      is then stamped with the current Unix time in seconds. */
  function ParseSlashCommand(form: SlashCommand, token: string, now: int): (r: Result<SlashCommand>)
    ensures r.Success? <==> form.Token == token
    ensures r.Failure? ==> r.error == InvalidTokenMessage
    ensures r.Success? ==> r.value.Timestamp == now && r.value.(Timestamp := form.Timestamp) == form
  {
    if form.Token != token then Failure(InvalidTokenMessage)
    else Success(form.(Timestamp := now))
  }

  /** A decoded dialog submission is accepted only with the configured token,
      and is otherwise passed through unchanged. */
  function ParseInteractiveRequest(payload: InteractiveRequest, token: string): (r: Result<InteractiveRequest>)
    ensures r.Success? <==> payload.Token == token
    ensures r.Success? ==> r.value == payload
    ensures r.Failure? ==> r.error == InvalidDialogTokenMessage
  {
    if payload.Token != token then Failure(InvalidDialogTokenMessage)
    else Success(payload)
  }

  // ---------------------------------------------------------------------------
  // Opening the dialog

  /** The dialog `OpenDialog` sends; its elements are the default elements. */
  function BuiltinDialog(callbackID: string): (d: Dialog)
    ensures d.CallbackID == callbackID
    ensures d.Title == "Ask a Question" && d.SubmitLabel == "Ask!"
    ensures FirstElementError(d.Elements) == None
    ensures |d.Elements| == 3 && d.Elements[0].Name == "summary" && d.Elements[1].Name == "description"
      && d.Elements[2].Name == "blocking" && d.Elements[2].Value == "no"
  {
    DefaultElementsValid();
    DefaultElementsShape();
    Dialog(callbackID, "Ask a Question", "Ask!", DefaultElements())
  }

  /** A call of `OpenDialog`: the callback id the dialog will be submitted
      with and the trigger it answers. Whether the call succeeds is never
      looked at by the handlers. */
  datatype DialogOpen = DialogOpen(callbackID: string, triggerID: string)

  /** The dialog such a call sends. */
  function SentDialog(o: DialogOpen): (d: Dialog)
    ensures d.CallbackID == o.callbackID && FirstElementError(d.Elements) == None
  {
    BuiltinDialog(o.callbackID)
  }

  // ---------------------------------------------------------------------------
  // Posting the result of an ask

  /** A Go map lookup: an absent key reads as the empty string. */
  function FormValue(m: map<string, string>, key: string): (v: string)
    ensures key in m ==> v == m[key]
    ensures key !in m ==> v == ""
  {
    if key in m then m[key] else ""
  }

  /** The ticket filed for an ask: who asked, the dialog's summary and
      description, and the project and components of the ask's config. */
  function TicketFor(ask: SlashCommand, request: InteractiveRequest): (t: TicketRequest)
    requires ask.Config.Some?
    ensures t.Username == ask.UserName
    ensures t.Summary == FormValue(request.Submission, "summary")
    ensures t.Description == FormValue(request.Submission, "description")
    ensures t.ProjectKey == ask.Config.value.Project && t.Components == ask.Config.value.Components
    ensures t.Priority == ""
  {
    TicketRequest(
      ask.UserName, ask.Config.value.Project,
      FormValue(request.Submission, "summary"), FormValue(request.Submission, "description"),
      "", ask.Config.value.Components)
  }

  const FailurePrefix: string := "Sorry! We failed to create an issue for that... please try again, and if it is helpful the error is `"

  function FailureText(err: string): string {
    FailurePrefix + err + "`"
  }

  function SuccessText(userID: string, summary: string, url: string, key: string): string {
    "<@" + userID + "> is asking \"" + summary + "\" (<" + url + "|" + key + ">)"
  }

  /** The message announcing the outcome of filing the ticket. `created` is
      what issue creation returned: the new issue's key, or its error. A
      failure is posted privately and quotes the error; a success is posted
      to the channel and mentions the asker, the summary, the ticket's URL
      and its key. */
  function AskResultResponse(j: JiraClient, ask: SlashCommand, request: InteractiveRequest, created: Result<string>): (r: SlackResponseResult)
    ensures r.ResponseType == "in_channel" <==> created.Success?
    ensures created.Failure? ==> r.ResponseType == "" && IsInfix(created.error, r.Text)
    ensures created.Success? ==> (
      && IsInfix(ask.UserID, r.Text)
      && IsInfix(FormValue(request.Submission, "summary"), r.Text)
      && IsInfix(GetTicketURL(j, created.value), r.Text)
      && IsInfix(created.value, r.Text))
  {
    if created.Failure? then
      FailureTextMentions(created.error);
      SlackResponseResult("", FailureText(created.error))
    else
      var summary := FormValue(request.Submission, "summary");
      var url := GetTicketURL(j, created.value);
      SuccessTextMentions(ask.UserID, summary, url, created.value);
      SlackResponseResult("in_channel", SuccessText(ask.UserID, summary, url, created.value))
  }

  /** A failure message quotes the error. */
  lemma FailureTextMentions(err: string)
    ensures IsInfix(err, FailureText(err))
  {
    InfixOfConcat(FailurePrefix, err, "`");
  }

  /** A success message mentions the user, the summary, the URL and the key. */
  lemma SuccessTextMentions(userID: string, summary: string, url: string, key: string)
    ensures IsInfix(userID, SuccessText(userID, summary, url, key))
    ensures IsInfix(summary, SuccessText(userID, summary, url, key))
    ensures IsInfix(url, SuccessText(userID, summary, url, key))
    ensures IsInfix(key, SuccessText(userID, summary, url, key))
  {
    var t := SuccessText(userID, summary, url, key);
    var a := "<@";
    var b := "> is asking \"";
    var c := "\" (<";
    var d := "|";
    var e := ">)";
    assert t == a + userID + b + summary + c + url + d + key + e;
    assert InfixAt(userID, t, |a|);
    assert InfixAt(summary, t, |a + userID + b|);
    assert InfixAt(url, t, |a + userID + b + summary + c|);
    assert InfixAt(key, t, |a + userID + b + summary + c + url + d|);
  }

  /** The error delivering the message, if any: a transport error, or any
      status other than 200. */
  function DeliveryError(outcome: HttpOutcome): (err: Option<string>)
    ensures err.None? <==> outcome.Response? && outcome.statusCode == 200
    ensures outcome.TransportError? ==> err == Some(outcome.err)
    ensures outcome.Response? && outcome.statusCode != 200 ==> err == Some("Slack server error: " + outcome.status + ".")
  {
    match outcome
    case TransportError(e) => Some(e)
    case Response(code, status) => if code != 200 then Some("Slack server error: " + status + ".") else None
  }

  /** Everything `PostAskResult` does for one ask: the ticket it files, the
      message it posts to the command's response URL, and the error it
      returns. */
  datatype Posted = Posted(ticket: TicketRequest, responseURL: string, response: SlackResponseResult, err: Option<string>)

  /** `created` is the outcome of filing the ticket, `delivery` that of
      posting the message. */
  function PostAskResult(j: JiraClient, ask: SlashCommand, request: InteractiveRequest,
                         created: Result<string>, delivery: HttpOutcome): (p: Posted)
    requires ask.Config.Some?
    ensures p.ticket.ProjectKey == ask.Config.value.Project && p.ticket.Components == ask.Config.value.Components
    ensures p.ticket.Username == ask.UserName && p.ticket.Summary == FormValue(request.Submission, "summary")
    ensures p.ticket.Description == FormValue(request.Submission, "description")
    ensures p.responseURL == ask.ResponseURL
    ensures p.response.ResponseType == "in_channel" <==> created.Success?
    ensures p.err.None? <==> delivery.Response? && delivery.statusCode == 200
  {
    Posted(TicketFor(ask, request), ask.ResponseURL, AskResultResponse(j, ask, request, created), DeliveryError(delivery))
  }

  // ---------------------------------------------------------------------------
  // The link command

  const InvalidCommandPrefix: string := "Invalid command, use /"
  const InvalidCommandSuffix: string := " link <jira project>"

  function InvalidCommandMessage(commandName: string): string {
    InvalidCommandPrefix + commandName + InvalidCommandSuffix
  }

  /** `handleChannelLink`'s parsing: the text's first space-separated field
      must be `link`, and the project is the second field. The source indexes
      the second field unchecked, so the text must contain a space. */
  function LinkProject(text: string, commandName: string): (r: Result<string>)
    requires |Split(text, ' ')| >= 2
    ensures r.Success? <==> Split(text, ' ')[0] == "link"
    ensures r.Success? ==> r.value == Split(text, ' ')[1] && ' ' !in r.value
    ensures r.Failure? ==> r.error == InvalidCommandMessage(commandName)
  {
    var s := Split(text, ' ');
    if s[0] != "link" then Failure(InvalidCommandMessage(commandName)) else Success(s[1])
  }

  /** The project a `link ` command names: the text between `link ` and the
      next space, or the end. It may be empty. */
  function LinkTarget(text: string): (p: string)
    requires HasPrefix(text, "link ")
    ensures HasPrefix(text[5..], p) && ' ' !in p
    ensures |text| == 5 + |p| || text[5 + |p|] == ' '
  {
    FirstField(text[5..], ' ');
    Split(text[5..], ' ')[0]
  }

  /** Text starting with `link ` always has a second field and parses, and
      the project linked is its link target. */
  lemma LinkPrefixParses(text: string, commandName: string)
    requires HasPrefix(text, "link ")
    ensures |Split(text, ' ')| >= 2
    ensures LinkProject(text, commandName) == Success(LinkTarget(text))
  {
    var rest := text[5..];
    assert text == "link" + [' '] + rest;
    SplitAfter("link", ' ', rest);
  }

  /** `link ` alone links the empty project. */
  lemma LinkEmptyProject(commandName: string)
    ensures HasPrefix("link ", "link ")
    ensures LinkProject("link ", commandName) == Success("")
  {
    LinkPrefixParses("link ", commandName);
    assert |LinkTarget("link ")| == 0;
  }

  // ---------------------------------------------------------------------------
  // Reply texts both generations use

  const ConfigPrefix: string := "This channel is set to JIRA project: "

  const NoLinkMessage: string :=
    "There is no /ask project configured for this channel. Use /ask link <PROJECT KEY> to link this channel to a JIRA project."

  const LinkedPrefix: string := "Got it, set "
  const LinkedInfix: string := " JIRA project to "

  function LinkedMessage(channelName: string, project: string): string {
    LinkedPrefix + channelName + LinkedInfix + project
  }

  const LinkFailedPrefix: string := "Unable to set the channel's project: "

  function LinkFailedMessage(err: string): string {
    LinkFailedPrefix + err
  }
}
