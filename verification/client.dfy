/** The first generation of handlers (asker/client.go): pending asks live in
    an in-memory queue keyed by callback id, and channel configurations in
    the generation-1 store. */
module Client {
  import opened Results
  import opened Text
  import opened Storage
  import opened Jira
  import opened Commands
  import LegacyStorage

  /** Asks older than this many seconds are swept from the queue. */
  const Timeout: int := 300

  /** `ask-<UnixNano>`. */
  function AskCallbackID(nanos: nat): (id: string)
    ensures HasPrefix(id, "ask-")
  {
    "ask-" + NatToDecimal(nanos)
  }

  /** Asks opened at different nanoseconds get different callback ids. */
  lemma AskCallbackIDInjective(m: nat, n: nat)
    requires AskCallbackID(m) == AskCallbackID(n)
    ensures m == n
  {
    assert AskCallbackID(m)[4..] == NatToDecimal(m);
    assert AskCallbackID(n)[4..] == NatToDecimal(n);
    NatToDecimalInjective(m, n);
  }

  function ConfigMessage(project: string): string {
    ConfigPrefix + project
  }

  const LoadFailedPrefix: string := "Unable to load configuration: "

  function LoadFailedMessage(err: string): string {
    LoadFailedPrefix + err
  }

  // ---------------------------------------------------------------------------
  // The sweep, as a function of the queue

  /** The entries a sweep at `now` keeps: those stamped no earlier than
      `now - Timeout`, unchanged. */
  function FreshEntries(queue: map<string, SlashCommand>, now: int): (r: map<string, SlashCommand>)
    ensures forall id :: id in r ==> id in queue && r[id] == queue[id]
  {
    map id | id in queue && queue[id].Timestamp >= now - Timeout :: queue[id]
  }

  /** An entry is kept exactly when it is not older than the timeout. */
  lemma FreshEntriesKeeps(queue: map<string, SlashCommand>, now: int, id: string)
    ensures id in FreshEntries(queue, now) <==> id in queue && queue[id].Timestamp >= now - Timeout
  {
  }

  /** Sweeping twice at the same time removes nothing more. */
  lemma {:induction false} FreshEntriesIdempotent(queue: map<string, SlashCommand>, now: int)
    ensures FreshEntries(FreshEntries(queue, now), now) == FreshEntries(queue, now)
  {
    var once := FreshEntries(queue, now);
    assert FreshEntries(once, now).Keys == once.Keys;
  }

  /** An earlier sweep never removes an entry a later sweep would keep: a
      later sweep after an earlier one leaves what the later sweep alone
      leaves. */
  lemma {:induction false} FreshEntriesMonotone(queue: map<string, SlashCommand>, earlier: int, later: int)
    requires earlier <= later
    ensures FreshEntries(queue, later).Keys <= FreshEntries(queue, earlier).Keys
    ensures FreshEntries(FreshEntries(queue, earlier), later) == FreshEntries(queue, later)
  {
    var r := FreshEntries(FreshEntries(queue, earlier), later);
    assert r.Keys == FreshEntries(queue, later).Keys;
  }

  // ---------------------------------------------------------------------------
  // The handlers

  class Asker {
    const jira: JiraClient
    const storage: LegacyStorage.Storage
    /** The package's global `AskQueue`: pending asks by callback id. */
    var askQueue: map<string, SlashCommand>

    /** The store is consistent, and every pending ask carries the
        configuration it was opened with. */
    ghost predicate Valid()
      reads this, storage
    {
      && storage.Valid()
      && forall id :: id in askQueue ==> askQueue[id].Config.Some?
    }

    constructor (jira: JiraClient, storage: LegacyStorage.Storage)
      requires storage.Valid()
      ensures Valid()
      ensures this.jira == jira && this.storage == storage && askQueue == map[]
    {
      this.jira := jira;
      this.storage := storage;
      askQueue := map[];
    }

    /** Links the channel to the project the command's text names. `fault` is
        the outcome of the store write. */
    method HandleChannelLink(command: SlashCommand, fault: Option<string>) returns (r: Result<string>)
      requires Valid() && |Split(command.Text, ' ')| >= 2
      modifies storage`configs
      ensures Valid()
      ensures LinkProject(command.Text, command.Command).Failure? ==>
        r == LinkProject(command.Text, command.Command) && storage.configs == old(storage.configs)
      ensures LinkProject(command.Text, command.Command).Success? ==>
        var p := LinkProject(command.Text, command.Command).value;
        && r == (if fault.None? then Success(p) else Failure(fault.value))
        && storage.configs == if fault.None?
             then old(storage.configs)[command.ChannelID := ChannelConfig(command.ChannelID, "", p, [], "")]
             else old(storage.configs)
    {
      var linked := LinkProject(command.Text, command.Command);
      if linked.Failure? {
        return linked;
      }
      var err := storage.SetChannelProject(command.ChannelID, linked.value, fault);
      if err.Some? {
        return Failure(err.value);
      }
      return linked;
    }

    /** The `/ask` handler. Text exactly `config` reports the channel's
        project; text starting with `link ` links the channel; anything else
        on a linked channel queues the ask under a fresh callback id, with the
        configuration fetched now, and opens the dialog. `nanos` is the clock
        in nanoseconds and `fault` the outcome of the link's store write. */
    method AskHandler(command: SlashCommand, nanos: nat, fault: Option<string>) returns (reply: Reply, dialog: Option<DialogOpen>)
      requires Valid()
      modifies this`askQueue, storage`configs
      ensures Valid()
      ensures command.Text == "config" ==>
        && askQueue == old(askQueue) && storage.configs == old(storage.configs) && dialog == None
        && reply == if command.ChannelID in storage.configs
             then Reply(200, ConfigMessage(storage.configs[command.ChannelID].Project))
             else Reply(400, LoadFailedMessage(ErrNotFound))
      ensures command.Text != "config" && HasPrefix(command.Text, "link ") ==>
        var p := LinkTarget(command.Text);
        && askQueue == old(askQueue) && dialog == None
        && storage.configs == (if fault.None?
             then old(storage.configs)[command.ChannelID := ChannelConfig(command.ChannelID, "", p, [], "")]
             else old(storage.configs))
        && reply == if fault.None?
             then Reply(200, LinkedMessage(command.ChannelName, p))
             else Reply(400, LinkFailedMessage(fault.value))
      ensures command.Text != "config" && !HasPrefix(command.Text, "link ") ==>
        && storage.configs == old(storage.configs)
        && (command.ChannelID !in storage.configs ==>
              askQueue == old(askQueue) && dialog == None && reply == Reply(200, NoLinkMessage))
        && (command.ChannelID in storage.configs ==>
              && askQueue == old(askQueue)[AskCallbackID(nanos) := command.(Config := Some(storage.configs[command.ChannelID]))]
              && dialog == Some(DialogOpen(AskCallbackID(nanos), command.TriggerID))
              && reply == Reply(200, ""))
    {
      if command.Text == "config" {
        var config := storage.GetChannelConfig(command.ChannelID);
        if config.Failure? {
          return Reply(400, LoadFailedMessage(config.error)), None;
        }
        return Reply(200, ConfigMessage(config.value.Project)), None;
      } else if HasPrefix(command.Text, "link ") {
        LinkPrefixParses(command.Text, command.Command);
        var project := HandleChannelLink(command, fault);
        if project.Failure? {
          return Reply(400, LinkFailedMessage(project.error)), None;
        }
        return Reply(200, LinkedMessage(command.ChannelName, project.value)), None;
      }

      var config := storage.GetChannelConfig(command.ChannelID);
      if config.Failure? {
        return Reply(200, NoLinkMessage), None;
      }
      var ask := command.(Config := Some(config.value));
      var callbackID := AskCallbackID(nanos);
      askQueue := askQueue[callbackID := ask];
      dialog := Some(DialogOpen(callbackID, command.TriggerID));
      reply := Reply(200, "");
    }

    /** The dialog-submission handler. A pending ask is posted with the
        configuration it was opened with and then dropped, whether or not
        posting succeeded; an unknown callback id changes nothing. The reply
        is always 200. `created` and `delivery` are the outcomes of filing
        the ticket and of posting the message. */
    method RequestHandler(request: InteractiveRequest, created: Result<string>, delivery: HttpOutcome)
      returns (reply: Reply, posted: Option<Posted>)
      requires Valid()
      modifies this`askQueue
      ensures Valid()
      ensures request.CallbackID in old(askQueue) ==>
        && posted == Some(PostAskResult(jira, old(askQueue)[request.CallbackID], request, created, delivery))
        && askQueue == old(askQueue) - {request.CallbackID}
      ensures request.CallbackID !in old(askQueue) ==> posted == None && askQueue == old(askQueue)
      ensures reply == Reply(200, "")
    {
      posted := None;
      if request.CallbackID in askQueue {
        var originalAsk := askQueue[request.CallbackID];
        posted := Some(PostAskResult(jira, originalAsk, request, created, delivery));
        askQueue := askQueue - {request.CallbackID};
      }
      reply := Reply(200, "");
    }

    /** One sweep of the queue at time `now` (Unix seconds): every entry older
        than the timeout is deleted in place. */
    method RemoveQueueItems(now: int)
      requires Valid()
      modifies this`askQueue
      ensures Valid()
      ensures askQueue == FreshEntries(old(askQueue), now)
    {
      var pending := askQueue.Keys;
      while pending != {}
        invariant pending <= old(askQueue).Keys
        invariant askQueue == map id | id in old(askQueue) && (id in pending || old(askQueue)[id].Timestamp >= now - Timeout)
                                     :: old(askQueue)[id]
        decreases pending
      {
        var callbackID :| callbackID in pending;
        if askQueue[callbackID].Timestamp < now - Timeout {
          askQueue := askQueue - {callbackID};
        }
        pending := pending - {callbackID};
      }
    }
  }
}
