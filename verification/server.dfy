/** The second generation of handlers (asker/server.go, with the dialog
    configuration of asker/dialog.go): pending asks and channel
    configurations live in the database, which each request receives as a
    parameter. Every request makes at most one store write; `fault` is that
    write's outcome. */
module Server {
  import opened Results
  import opened Text
  import opened Storage
  import opened Dialogs
  import opened Jira
  import opened Commands

  /** `CleanQueue`'s period and the sweep's timeout, in seconds (five
      minutes). */
  const CleanQueueTimeout: int := 300

  // ---------------------------------------------------------------------------
  // Callback ids

  /** `ask-<ChannelID>-<UnixNano>`. */
  function CallbackID(channelID: string, nanos: nat): (id: string)
    ensures HasPrefix(id, "ask-")
  {
    "ask-" + channelID + "-" + NatToDecimal(nanos)
  }

  /** The number of decimal digits `s` ends with. */
  function TrailingDigits(s: string): (n: nat)
    ensures n <= |s|
    decreases |s|
  {
    if s == [] || !('0' <= s[|s| - 1] <= '9') then 0 else 1 + TrailingDigits(s[..|s| - 1])
  }

  lemma {:induction false} TrailingDigitsAfterDash(p: string, d: string)
    requires IsDecimal(d)
    ensures TrailingDigits(p + "-" + d) == |d|
    decreases |d|
  {
    var s := p + "-" + d;
    if d == [] {
      assert s == p + "-";
    } else {
      assert s[..|s| - 1] == p + "-" + d[..|d| - 1];
      assert s[|s| - 1] == d[|d| - 1];
      TrailingDigitsAfterDash(p, d[..|d| - 1]);
    }
  }

  /** The channel id and the clock reading can be read back from a callback
      id, even when the channel id contains dashes: distinct asks get
      distinct ids unless they are in the same channel at the same
      nanosecond. */
  lemma CallbackIDInjective(c1: string, n1: nat, c2: string, n2: nat)
    requires CallbackID(c1, n1) == CallbackID(c2, n2)
    ensures c1 == c2 && n1 == n2
  {
    var d1, d2 := NatToDecimal(n1), NatToDecimal(n2);
    var s := CallbackID(c1, n1);
    TrailingDigitsAfterDash("ask-" + c1, d1);
    TrailingDigitsAfterDash("ask-" + c2, d2);
    assert s == "ask-" + c1 + "-" + d1 && s == "ask-" + c2 + "-" + d2;
    assert |d1| == |d2|;
    assert d1 == s[|s| - |d1|..] == d2;
    assert c1 == s[4..|s| - |d1| - 1] == c2;
    NatToDecimalInjective(n1, n2);
  }

  // ---------------------------------------------------------------------------
  // The config command

  const LoadHintPrefix: string :=
    "Unable to load configuration (do you need to `/ask link <PROJECTKEY>` first?)\nThe error from storage is: "

  function LoadHintMessage(err: string): string {
    LoadHintPrefix + err
  }

  const DefaultComponentsInfix: string := "\nDefault components: "

  const NoComponentsHint: string := "None! Use `/ask config components Component1 Component2` to set them"

  /** The components joined by `, `, or the hint when that is empty. */
  function ComponentsText(components: seq<string>): (t: string)
    ensures t != ""
    ensures forall k :: 0 <= k < |components| ==> IsInfix(components[k], t)
  {
    JoinContains(components, ", ");
    var joined := Join(components, ", ");
    if joined == "" then
      assert forall k :: 0 <= k < |components| ==> components[k] == [] && InfixAt(components[k], NoComponentsHint, 0);
      NoComponentsHint
    else joined
  }

  function ConfigReportMessage(project: string, components: seq<string>): string {
    ConfigPrefix + project + DefaultComponentsInfix + ComponentsText(components)
  }

  /** The hint replaces the list exactly when there are no components or a
      single empty one (as `config components ` with a trailing space
      stores); otherwise the list is shown, and is not empty. */
  lemma ComponentsTextHint(components: seq<string>)
    ensures components == [] || components == [""] ==> ComponentsText(components) == NoComponentsHint
    ensures !(components == [] || components == [""]) ==>
      ComponentsText(components) == Join(components, ", ") != ""
  {
    if |components| >= 2 {
      assert Join(components, ", ") == components[0] + ", " + Join(components[1..], ", ");
    } else if |components| == 1 {
      assert Join(components, ", ") == components[0];
    }
  }

  const StoreConfigFailedPrefix: string := "Unable to store configuration: "

  function StoreConfigFailedMessage(err: string): string {
    StoreConfigFailedPrefix + err
  }

  const ComponentsSetPrefix: string := "Got it, default components for `"
  const ComponentsSetInfix: string := "` are now ["
  const ComponentsSetSuffix: string := "]!"

  /** Go prints a string slice with `%v` as its elements separated by
      spaces, in brackets. */
  function ComponentsSetMessage(project: string, components: seq<string>): (m: string)
    ensures IsInfix(project, m)
    ensures forall k :: 0 <= k < |components| ==> IsInfix(components[k], m)
  {
    var list := Join(components, " ");
    var m := ComponentsSetPrefix + project + ComponentsSetInfix + list + ComponentsSetSuffix;
    assert InfixAt(project, m, |ComponentsSetPrefix|);
    assert InfixAt(list, m, |ComponentsSetPrefix + project + ComponentsSetInfix|);
    JoinContains(components, " ");
    forall k | 0 <= k < |components|
      ensures IsInfix(components[k], m)
    {
      InfixTrans(components[k], list, m);
    }
    m
  }

  const InvalidConfigMessage: string :=
    "Invalid config command. Available options are `/ask config`, `/ask config components Comp1 Comp2`, and maybe more. Patches welcome!"

  /** What a reply and the configuration collection become. */
  datatype Outcome = Outcome(reply: Reply, configs: map<string, ChannelConfig>)

  /** What `handleConfigCommand` does: report the channel's configuration,
      or replace its components by the words after `components`. Only that
      channel's components can change, and only on an acknowledged
      `config components …`; every other reply leaves the store as it was. */
  function ConfigCommandOutcome(configs: map<string, ChannelConfig>, command: SlashCommand, fault: Option<string>): (o: Outcome)
    requires KeyedByChannel(configs)
    ensures KeyedByChannel(o.configs) && o.configs.Keys == configs.Keys
    ensures forall ch :: ch in configs && ch != command.ChannelID ==> o.configs[ch] == configs[ch]
    ensures command.ChannelID in configs ==>
      o.configs[command.ChannelID] == configs[command.ChannelID].(Components := o.configs[command.ChannelID].Components)
    ensures o.configs != configs ==>
      && command.ChannelID in configs && fault.None?
      && |Split(command.Text, ' ')| >= 2 && Split(command.Text, ' ')[1] == "components"
      && o.configs[command.ChannelID].Components == Split(command.Text, ' ')[2..]
    ensures o.reply.status == 400 <==>
      && command.ChannelID in configs
      && |Split(command.Text, ' ')| >= 2
      && (Split(command.Text, ' ')[1] != "components" || fault.Some?)
    ensures o.reply.status != 400 ==> o.reply.status == 200
    ensures command.ChannelID !in configs ==> o.reply == Reply(200, LoadHintMessage(ErrNotFound))
    ensures command.ChannelID in configs && |Split(command.Text, ' ')| == 1 ==>
      o.reply == Reply(200, ConfigReportMessage(configs[command.ChannelID].Project, configs[command.ChannelID].Components))
    ensures (&& command.ChannelID in configs && fault.None?
             && |Split(command.Text, ' ')| >= 2 && Split(command.Text, ' ')[1] == "components") ==>
      && o.configs[command.ChannelID].Components == Split(command.Text, ' ')[2..]
      && o.reply == Reply(200, ComponentsSetMessage(configs[command.ChannelID].Project, Split(command.Text, ' ')[2..]))
  {
    var words := Split(command.Text, ' ');
    if command.ChannelID !in configs then Outcome(Reply(200, LoadHintMessage(ErrNotFound)), configs)
    else
      var config := configs[command.ChannelID];
      if |words| == 1 then Outcome(Reply(200, ConfigReportMessage(config.Project, config.Components)), configs)
      else if words[1] == "components" then
        var updated := config.(Components := words[2..]);
        if fault.Some? then Outcome(Reply(400, StoreConfigFailedMessage(fault.value)), configs)
        else Outcome(Reply(200, ComponentsSetMessage(updated.Project, updated.Components)), configs[updated.ChannelID := updated])
      else Outcome(Reply(400, InvalidConfigMessage), configs)
  }

  /** `config components A B` on a linked channel stores exactly `[A, B]`,
      in order, and keeps the rest of the record. */
  lemma {:induction false} ConfigComponentsStored(configs: map<string, ChannelConfig>, command: SlashCommand, rest: string)
    requires KeyedByChannel(configs) && command.ChannelID in configs
    requires command.Text == "config components " + rest
    ensures ConfigCommandOutcome(configs, command, None).configs
      == configs[command.ChannelID := configs[command.ChannelID].(Components := Split(rest, ' '))]
    ensures ConfigCommandOutcome(configs, command, None).reply.status == 200
  {
    assert command.Text == "config" + [' '] + ("components" + [' '] + rest);
    SplitAfter("config", ' ', "components" + [' '] + rest);
    SplitAfter("components", ' ', rest);
    var words := Split(command.Text, ' ');
    assert words == ["config", "components"] + Split(rest, ' ');
    assert words[2..] == Split(rest, ' ');
  }

  /** A bare `config components` on a linked channel clears the stored list. */
  lemma {:induction false} ConfigComponentsCleared(configs: map<string, ChannelConfig>, command: SlashCommand)
    requires KeyedByChannel(configs) && command.ChannelID in configs
    requires command.Text == "config" + [' '] + "components"
    ensures ConfigCommandOutcome(configs, command, None).configs
      == configs[command.ChannelID := configs[command.ChannelID].(Components := [])]
  {
    SplitAfter("config", ' ', "components");
    SplitWithoutSep("components", ' ');
    var words := Split(command.Text, ' ');
    assert words == ["config", "components"];
    var o := ConfigCommandOutcome(configs, command, None);
    var ch := command.ChannelID;
    assert o.configs[ch] == configs[ch].(Components := words[2..]);
    assert words[2..] == [];
  }

  // ---------------------------------------------------------------------------
  // Replies of the ask and submit paths

  const StoreCallbackFailedPrefix: string := "Internal Error storing callback: "

  function StoreCallbackFailedMessage(err: string): string {
    StoreCallbackFailedPrefix + err
  }

  const NoChannelConfigMessage: string := "Bad request, unable to find configuration for the channel requested"

  const LostRequestMessage: string :=
    "I seem to have lost this request, which is unfortunate. I tried to store it in Mongo but now cannot find it."

  // ---------------------------------------------------------------------------
  // The handlers

  class Asker {
    const jira: JiraClient
    /** The elements of the configurable dialog. */
    var dialogElements: seq<DialogElement>

    /** The configured elements always pass the validator. */
    ghost predicate Valid()
      reads this
    {
      FirstElementError(dialogElements) == None
    }

    constructor (jira: JiraClient)
      ensures Valid()
      ensures this.jira == jira && dialogElements == []
    {
      this.jira := jira;
      dialogElements := [];
    }

    /** An empty element list installs the default elements; otherwise the
        elements are installed only if every check passes, and the first
        failing check's error is returned. */
    method SetDialogElements(inDialog: Dialog) returns (err: Option<string>)
      requires Valid()
      modifies this`dialogElements
      ensures Valid()
      ensures inDialog.Elements == [] ==> err == None && dialogElements == DefaultElements()
      ensures inDialog.Elements != [] && FirstElementError(inDialog.Elements).None? ==>
        err == None && dialogElements == inDialog.Elements
      ensures inDialog.Elements != [] && FirstElementError(inDialog.Elements).Some? ==>
        err == Some(Message(FirstElementError(inDialog.Elements).value)) && dialogElements == old(dialogElements)
    {
      if |inDialog.Elements| < 1 {
        DefaultElementsValid();
        dialogElements := DefaultElements();
        return None;
      }
      var fault := CheckElements(inDialog.Elements);
      if fault.Some? {
        return Some(Message(fault.value));
      }
      dialogElements := inDialog.Elements;
      return None;
    }

    /** The configurable dialog with the given callback id. */
    function GetDialog(callbackID: string): (d: Dialog)
      reads this
      ensures d.CallbackID == callbackID && d.Title == "Ask a Question" && d.SubmitLabel == "Ask!"
      ensures d.Elements == dialogElements
      ensures Valid() ==> FirstElementError(d.Elements) == None
    {
      Dialog(callbackID, "Ask a Question", "Ask!", dialogElements)
    }

    /** Links the channel to the project the command's text names. */
    method HandleChannelLink(db: Database, command: SlashCommand, fault: Option<string>) returns (r: Result<string>)
      requires db.Valid() && |Split(command.Text, ' ')| >= 2
      modifies db`configs
      ensures db.Valid()
      ensures LinkProject(command.Text, command.Command).Failure? ==>
        r == LinkProject(command.Text, command.Command) && db.configs == old(db.configs)
      ensures LinkProject(command.Text, command.Command).Success? ==>
        var p := LinkProject(command.Text, command.Command).value;
        && r == (if fault.None? then Success(p) else Failure(fault.value))
        && db.configs == if fault.None?
             then old(db.configs)[command.ChannelID := ChannelConfig(command.ChannelID, "", p, [], "")]
             else old(db.configs)
    {
      var linked := LinkProject(command.Text, command.Command);
      if linked.Failure? {
        return linked;
      }
      var err := db.SetChannelProject(command.ChannelID, linked.value, fault);
      if err.Some? {
        return Failure(err.value);
      }
      return linked;
    }

    method HandleConfigCommand(db: Database, command: SlashCommand, fault: Option<string>) returns (reply: Reply)
      requires db.Valid()
      modifies db`configs
      ensures db.Valid()
      ensures Outcome(reply, db.configs) == ConfigCommandOutcome(old(db.configs), command, fault)
    {
      var commands := Split(command.Text, ' ');
      var config := db.GetChannelConfig(command.ChannelID);
      if config.Failure? {
        return Reply(200, LoadHintMessage(config.error));
      }
      if |commands| == 1 {
        return Reply(200, ConfigReportMessage(config.value.Project, config.value.Components));
      } else if commands[1] == "components" {
        var updated := config.value.(Components := commands[2..]);
        var err := db.SetChannelConfig(updated, fault);
        if err.Some? {
          return Reply(400, StoreConfigFailedMessage(err.value));
        }
        return Reply(200, ComponentsSetMessage(updated.Project, updated.Components));
      }
      return Reply(400, InvalidConfigMessage);
    }

    /** The `/ask` handler. Text starting with `config` goes to the config
        command, then text starting with `link ` links the channel; anything
        else on a linked channel stores the ask under a fresh callback id and
        only then opens the dialog. `nanos` is the clock in nanoseconds. */
    method AskHandler(db: Database, command: SlashCommand, nanos: nat, fault: Option<string>)
      returns (reply: Reply, dialog: Option<DialogOpen>)
      requires db.Valid()
      modifies db`configs, db`callbacks
      ensures db.Valid()
      ensures HasPrefix(command.Text, "config") ==>
        && Outcome(reply, db.configs) == ConfigCommandOutcome(old(db.configs), command, fault)
        && db.callbacks == old(db.callbacks) && dialog == None
      ensures !HasPrefix(command.Text, "config") && HasPrefix(command.Text, "link ") ==>
        var p := LinkTarget(command.Text);
        && db.callbacks == old(db.callbacks) && dialog == None
        && db.configs == (if fault.None?
             then old(db.configs)[command.ChannelID := ChannelConfig(command.ChannelID, "", p, [], "")]
             else old(db.configs))
        && reply == if fault.None?
             then Reply(200, LinkedMessage(command.ChannelName, p))
             else Reply(400, LinkFailedMessage(fault.value))
      ensures !HasPrefix(command.Text, "config") && !HasPrefix(command.Text, "link ") ==>
        && db.configs == old(db.configs)
        && (command.ChannelID !in db.configs ==>
              db.callbacks == old(db.callbacks) && dialog == None && reply == Reply(200, NoLinkMessage))
        && (command.ChannelID in db.configs ==>
              var id := CallbackID(command.ChannelID, nanos);
              var ask := command.(Config := Some(db.configs[command.ChannelID]));
              && db.callbacks == (if fault.None? then old(db.callbacks)[id := EncodeCallback(id, ask)] else old(db.callbacks))
              && dialog == (if fault.None? then Some(DialogOpen(id, command.TriggerID)) else None)
              && reply == (if fault.None? then Reply(200, "") else Reply(500, StoreCallbackFailedMessage(fault.value))))
    {
      if HasPrefix(command.Text, "config") {
        reply := HandleConfigCommand(db, command, fault);
        return reply, None;
      } else if HasPrefix(command.Text, "link ") {
        LinkPrefixParses(command.Text, command.Command);
        var project := HandleChannelLink(db, command, fault);
        if project.Failure? {
          return Reply(400, LinkFailedMessage(project.error)), None;
        }
        return Reply(200, LinkedMessage(command.ChannelName, project.value)), None;
      }

      var config := db.GetChannelConfig(command.ChannelID);
      if config.Failure? {
        return Reply(200, NoLinkMessage), None;
      }
      var ask := command.(Config := Some(config.value));
      var callbackID := CallbackID(command.ChannelID, nanos);
      var err := db.StoreCallback(callbackID, ask, fault);
      if err.Some? {
        return Reply(500, StoreCallbackFailedMessage(err.value)), None;
      }
      dialog := Some(DialogOpen(callbackID, command.TriggerID));
      reply := Reply(200, "");
    }

    /** The dialog-submission handler. The ask is read back from the store and
        filed with the channel's configuration as it is now, then its
        callback is removed; a callback that is not stored is reported lost
        and nothing is filed. A missing configuration is reported first and
        the handler carries on, so with no stored callback the reply is 400
        with both texts. `created` and `delivery` are the outcomes of filing
        the ticket and posting the message, `fault` that of the removal,
        whose error is ignored. */
    method DialogRequestHandler(db: Database, request: InteractiveRequest, created: Result<string>,
                                delivery: HttpOutcome, fault: Option<string>)
      returns (reply: Reply, posted: Option<Posted>)
      requires db.Valid()
      requires request.Channel.Id in db.configs || request.CallbackID !in db.callbacks
      modifies db`callbacks
      ensures db.Valid()
      ensures request.CallbackID in old(db.callbacks) ==>
        var ask := DecodeCallback(old(db.callbacks)[request.CallbackID]).(Config := Some(db.configs[request.Channel.Id]));
        && posted == Some(PostAskResult(jira, ask, request, created, delivery))
        && db.callbacks == (if fault.None? then old(db.callbacks) - {request.CallbackID} else old(db.callbacks))
        && reply == Reply(200, "")
      ensures request.CallbackID !in old(db.callbacks) ==>
        && posted == None && db.callbacks == old(db.callbacks)
        && reply == if request.Channel.Id in db.configs
             then Reply(400, LostRequestMessage)
             else Reply(400, NoChannelConfigMessage + LostRequestMessage)
    {
      var body := "";
      var config := db.GetChannelConfig(request.Channel.Id);
      if config.Failure? {
        body := NoChannelConfigMessage;
      }
      var originalAsk := db.GetCallback(request.CallbackID);
      if originalAsk.Failure? {
        return Reply(400, body + LostRequestMessage), None;
      }
      var ask := originalAsk.value.(Config := Some(config.value));
      posted := Some(PostAskResult(jira, ask, request, created, delivery));
      var _ := db.RemoveCallback(request.CallbackID, fault);
      reply := Reply(200, "");
    }

    /** One tick of `CleanQueue`: the stale sweep with the five-minute
        timeout, as written. It removes nothing. */
    method CleanQueueTick(db: Database, now: int, fault: Option<string>)
      requires db.Valid()
      modifies db`callbacks
      ensures db.Valid()
      ensures db.callbacks == old(db.callbacks)
    {
      var _ := db.RemoveStaleCallbacks(CleanQueueTimeout, now, fault);
      StaleSweepMissesStoredCallbacks(old(db.callbacks), now - CleanQueueTimeout);
    }
  }
}
