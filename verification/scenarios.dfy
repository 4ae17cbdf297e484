/** End-to-end runs of both generations of handlers over fresh stores: the
    usual link-ask-submit flow, an unknown callback, an unlinked channel,
    setting default components, which configuration a ticket is filed with,
    replaying a submission, and the stale sweep. */
module Scenarios {
  import opened Results
  import opened Text
  import opened Storage
  import opened Jira
  import opened Commands
  import LegacyStorage
  import Client
  import Server

  /** A parsed slash command from user `U1` in `channel`, stamped at `now`. */
  function SlashFrom(channel: string, text: string, now: int): (c: SlashCommand)
    ensures c.ChannelID == channel && c.Text == text && c.Timestamp == now && c.Config == None
  {
    SlashCommand("tok", "T1", "team", "", "", channel, "general", "U1", "alice", "/ask", text,
                 "https://hooks.example/response", "trigger", now, None)
  }

  /** A dialog submission for `callbackID` from `channel`. */
  function SubmissionFor(channel: string, callbackID: string, summary: string): (r: InteractiveRequest)
    ensures r.CallbackID == callbackID && r.Channel.Id == channel
    ensures FormValue(r.Submission, "summary") == summary
  {
    InteractiveRequest("dialog_submission", map["summary" := summary, "description" := "details"], callbackID,
                       SlackTeam("T1", "team"), SlackTuple("U1", "alice"), SlackTuple(channel, "general"), "1", "tok")
  }

  /** `link P` is routed to linking and names `P` when `P` has no space. */
  lemma LinkTargetOf(project: string)
    requires ' ' !in project
    ensures !HasPrefix("link " + project, "config") && HasPrefix("link " + project, "link ")
    ensures LinkTarget("link " + project) == project
  {
    var text := "link " + project;
    assert text[..5] == "link ";
    assert text[5..] == project;
    assert |text| >= 6 ==> text[..6][0] == 'l';
    SplitWithoutSep(project, ' ');
  }

  /** A question that is neither a config nor a link command. */
  predicate IsQuestion(text: string) {
    !HasPrefix(text, "config") && !HasPrefix(text, "link ")
  }

  /** The second generation, start to end: link a channel, ask, and submit
      the dialog. The ask opens the dialog under the channel's callback id,
      and the ticket is filed in the linked project with the submitted
      summary, announced with its key; the callback is then gone. */
  method Gen2LinkAskSubmit(j: JiraClient, channel: string, project: string, question: string, nanos: nat, summary: string, key: string)
    returns (dialog: Option<DialogOpen>, posted: Option<Posted>, pending: set<string>)
    requires ' ' !in project && IsQuestion(question)
    ensures dialog == Some(DialogOpen(Server.CallbackID(channel, nanos), "trigger"))
    ensures posted.Some? && posted.value.ticket.ProjectKey == project && posted.value.ticket.Summary == summary
    ensures posted.value.response.ResponseType == "in_channel" && IsInfix(key, posted.value.response.Text)
    ensures posted.value.err == None
    ensures pending == {}
  {
    var db := new Database();
    var asker := new Server.Asker(j);
    LinkTargetOf(project);
    var _, _ := asker.AskHandler(db, SlashFrom(channel, "link " + project, 100), 1, None);
    var _, d := asker.AskHandler(db, SlashFrom(channel, question, 100), nanos, None);
    dialog := d;
    var _, p := asker.DialogRequestHandler(db, SubmissionFor(channel, Server.CallbackID(channel, nanos), summary),
                                          Success(key), Response(200, "200 OK"), None);
    posted := p;
    pending := db.callbacks.Keys;
  }

  /** Submitting a callback id that was never stored: the second generation
      replies 400 and files nothing. */
  method Gen2UnknownCallback(j: JiraClient, channel: string, project: string, callbackID: string)
    returns (reply: Reply, posted: Option<Posted>)
    requires ' ' !in project
    ensures reply == Reply(400, Server.LostRequestMessage) && posted == None
  {
    var db := new Database();
    var asker := new Server.Asker(j);
    LinkTargetOf(project);
    var _, _ := asker.AskHandler(db, SlashFrom(channel, "link " + project, 100), 1, None);
    reply, posted := asker.DialogRequestHandler(db, SubmissionFor(channel, callbackID, "s"),
                                               Success("K-1"), Response(200, "200 OK"), None);
  }

  /** A submission from a channel that was never linked, for a callback that
      was never stored: the second generation reports both the missing
      configuration and the lost request, with status 400, and files nothing. */
  method Gen2UnlinkedSubmission(j: JiraClient, channel: string, callbackID: string)
    returns (reply: Reply, posted: Option<Posted>)
    ensures reply == Reply(400, Server.NoChannelConfigMessage + Server.LostRequestMessage) && posted == None
  {
    var db := new Database();
    var asker := new Server.Asker(j);
    reply, posted := asker.DialogRequestHandler(db, SubmissionFor(channel, callbackID, "s"),
                                               Success("K-1"), Response(200, "200 OK"), None);
  }

  /** Submitting an unknown callback id to the first generation: it replies
      200 and files nothing. */
  method Gen1UnknownCallback(j: JiraClient, callbackID: string)
    returns (reply: Reply, posted: Option<Posted>)
    ensures reply == Reply(200, "") && posted == None
  {
    var store := new LegacyStorage.Storage();
    var asker := new Client.Asker(j, store);
    reply, posted := asker.RequestHandler(SubmissionFor("C1", callbackID, "s"), Success("K-1"), Response(200, "200 OK"));
  }

  /** An ask on a channel that was never linked asks the user to link it, and
      stores nothing, in either generation. */
  method AskUnlinked(j: JiraClient, channel: string, question: string, nanos: nat)
    returns (reply1: Reply, reply2: Reply, queue: set<string>, callbacks: set<string>)
    requires question != "config" && IsQuestion(question)
    ensures reply1 == Reply(200, NoLinkMessage) && reply2 == Reply(200, NoLinkMessage)
    ensures queue == {} && callbacks == {}
  {
    var store := new LegacyStorage.Storage();
    var gen1 := new Client.Asker(j, store);
    var dialog1, dialog2;
    reply1, dialog1 := gen1.AskHandler(SlashFrom(channel, question, 100), nanos, None);
    queue := gen1.askQueue.Keys;
    var db := new Database();
    var gen2 := new Server.Asker(j);
    reply2, dialog2 := gen2.AskHandler(db, SlashFrom(channel, question, 100), nanos, None);
    callbacks := db.callbacks.Keys;
  }

  /** `config components A B` on a linked channel: the stored configuration
      then lists exactly those two components, in order, in the linked
      project. */
  method SetComponents(j: JiraClient, channel: string, project: string, a: string, b: string)
    returns (config: Result<ChannelConfig>)
    requires ' ' !in project && ' ' !in a && ' ' !in b
    ensures config.Success? && config.value.Project == project && config.value.Components == [a, b]
  {
    var db := new Database();
    var asker := new Server.Asker(j);
    LinkTargetOf(project);
    var _, _ := asker.AskHandler(db, SlashFrom(channel, "link " + project, 100), 1, None);
    assert db.configs[channel].Project == project;
    var text := "config components " + (a + [' '] + b);
    assert text[..6] == "config";
    SplitAfter(a, ' ', b);
    SplitWithoutSep(b, ' ');
    var command := SlashFrom(channel, text, 100);
    Server.ConfigComponentsStored(db.configs, command, a + [' '] + b);
    var _, _ := asker.AskHandler(db, command, 2, None);
    config := db.GetChannelConfig(channel);
  }

  /** The first generation files a ticket with the configuration the ask was
      opened with: relinking the channel in between does not matter. */
  method Gen1FilesWithSnapshot(j: JiraClient, channel: string, first: string, second: string, question: string, nanos: nat)
    returns (posted: Option<Posted>)
    requires ' ' !in first && ' ' !in second && question != "config" && IsQuestion(question)
    ensures posted.Some? && posted.value.ticket.ProjectKey == first
  {
    var store := new LegacyStorage.Storage();
    var asker := new Client.Asker(j, store);
    LinkTargetOf(first);
    LinkTargetOf(second);
    var _, _ := asker.AskHandler(SlashFrom(channel, "link " + first, 100), 1, None);
    var _, _ := asker.AskHandler(SlashFrom(channel, question, 100), nanos, None);
    var _, _ := asker.AskHandler(SlashFrom(channel, "link " + second, 100), 2, None);
    var _, p := asker.RequestHandler(SubmissionFor(channel, Client.AskCallbackID(nanos), "s"), Success("K-1"), Response(200, "200 OK"));
    posted := p;
  }

  /** The second generation files a ticket with the configuration the channel
      has at submission: relinking in between changes the project. */
  method Gen2FilesWithLiveConfig(j: JiraClient, channel: string, first: string, second: string, question: string, nanos: nat)
    returns (posted: Option<Posted>)
    requires ' ' !in first && ' ' !in second && IsQuestion(question)
    ensures posted.Some? && posted.value.ticket.ProjectKey == second
  {
    var db := new Database();
    var asker := new Server.Asker(j);
    LinkTargetOf(first);
    LinkTargetOf(second);
    var _, _ := asker.AskHandler(db, SlashFrom(channel, "link " + first, 100), 1, None);
    var _, _ := asker.AskHandler(db, SlashFrom(channel, question, 100), nanos, None);
    var _, _ := asker.AskHandler(db, SlashFrom(channel, "link " + second, 100), 2, None);
    var _, p := asker.DialogRequestHandler(db, SubmissionFor(channel, Server.CallbackID(channel, nanos), "s"),
                                          Success("K-1"), Response(200, "200 OK"), None);
    posted := p;
  }

  /** Linking a channel again erases the default components it had. */
  method RelinkErasesComponents(channel: string, project: string, components: seq<string>)
    returns (config: Result<ChannelConfig>)
    ensures config.Success? && config.value.Project == project && config.value.Components == []
  {
    var db := new Database();
    var _ := db.SetChannelConfig(ChannelConfig(channel, "general", project, components, ""), None);
    var _ := db.SetChannelProject(channel, project, None);
    config := db.GetChannelConfig(channel);
  }

  /** Replaying a submission in the first generation: the ticket is filed
      once, and both replies are 200. */
  method Gen1ReplayFilesOnce(j: JiraClient, channel: string, project: string, question: string, nanos: nat)
    returns (first: Option<Posted>, second: Option<Posted>, reply1: Reply, reply2: Reply)
    requires ' ' !in project && question != "config" && IsQuestion(question)
    ensures first.Some? && first.value.ticket.ProjectKey == project && second == None
    ensures reply1 == Reply(200, "") && reply2 == Reply(200, "")
  {
    var store := new LegacyStorage.Storage();
    var asker := new Client.Asker(j, store);
    LinkTargetOf(project);
    var _, _ := asker.AskHandler(SlashFrom(channel, "link " + project, 100), 1, None);
    var _, _ := asker.AskHandler(SlashFrom(channel, question, 100), nanos, None);
    var request := SubmissionFor(channel, Client.AskCallbackID(nanos), "s");
    reply1, first := asker.RequestHandler(request, Success("K-1"), Response(200, "200 OK"));
    reply2, second := asker.RequestHandler(request, Success("K-2"), Response(200, "200 OK"));
  }

  /** Replaying a submission in the second generation: the ticket is filed
      once, and the replay is reported lost. */
  method Gen2ReplayFilesOnce(j: JiraClient, channel: string, project: string, question: string, nanos: nat)
    returns (first: Option<Posted>, second: Option<Posted>, reply2: Reply)
    requires ' ' !in project && IsQuestion(question)
    ensures first.Some? && first.value.ticket.ProjectKey == project && second == None
    ensures reply2 == Reply(400, Server.LostRequestMessage)
  {
    var db := new Database();
    var asker := new Server.Asker(j);
    LinkTargetOf(project);
    var _, _ := asker.AskHandler(db, SlashFrom(channel, "link " + project, 100), 1, None);
    var _, _ := asker.AskHandler(db, SlashFrom(channel, question, 100), nanos, None);
    var request := SubmissionFor(channel, Server.CallbackID(channel, nanos), "s");
    var reply1;
    reply1, first := asker.DialogRequestHandler(db, request, Success("K-1"), Response(200, "200 OK"), None);
    reply2, second := asker.DialogRequestHandler(db, request, Success("K-2"), Response(200, "200 OK"), None);
  }

  /** The first generation's sweep drops an ask once it is more than five
      minutes old, and keeps it until then. */
  method Gen1SweepExpires(j: JiraClient, channel: string, project: string, question: string, nanos: nat, stamped: int)
    returns (keptAt300: bool, keptAt301: bool)
    requires ' ' !in project && question != "config" && IsQuestion(question)
    ensures keptAt300 && !keptAt301
  {
    var store := new LegacyStorage.Storage();
    var asker := new Client.Asker(j, store);
    LinkTargetOf(project);
    var _, _ := asker.AskHandler(SlashFrom(channel, "link " + project, stamped), 1, None);
    var _, _ := asker.AskHandler(SlashFrom(channel, question, stamped), nanos, None);
    asker.RemoveQueueItems(stamped + 300);
    keptAt300 := Client.AskCallbackID(nanos) in asker.askQueue;
    asker.RemoveQueueItems(stamped + 301);
    keptAt301 := Client.AskCallbackID(nanos) in asker.askQueue;
  }

  /** The second generation's sweep, as written, keeps an ask however old it
      is; the intended sweep drops it after five minutes. */
  method Gen2SweepAsWrittenKeepsStale(j: JiraClient, channel: string, project: string, question: string, nanos: nat, stamped: int, later: int)
    returns (keptAsWritten: bool, keptIntended: bool)
    requires ' ' !in project && IsQuestion(question)
    requires later > stamped + Server.CleanQueueTimeout
    ensures keptAsWritten && !keptIntended
  {
    var db := new Database();
    var asker := new Server.Asker(j);
    LinkTargetOf(project);
    var _, _ := asker.AskHandler(db, SlashFrom(channel, "link " + project, stamped), 1, None);
    var _, _ := asker.AskHandler(db, SlashFrom(channel, question, stamped), nanos, None);
    var id := Server.CallbackID(channel, nanos);
    assert db.callbacks[id][TimestampKey] == BInt(stamped);
    asker.CleanQueueTick(db, later, None);
    keptAsWritten := id in db.callbacks;
    var _ := db.RemoveExpiredCallbacks(Server.CleanQueueTimeout, later, None);
    keptIntended := id in db.callbacks;
  }
}
