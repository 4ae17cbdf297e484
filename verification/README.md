# slack-ask in Dafny

slack-ask is a Slack bot. A user types `/ask` in a channel and the bot opens a dialog. When the dialog is submitted, the bot files a Jira ticket in the project linked to that channel. It then posts the ticket link back to the channel.

This project models the bot's decision logic and its keyed stores, and proves properties of them. The repository holds two generations of the handlers, and each is modelled against its own store.

- **Generation 1** (`asker/client.go`, `asker/storage.go`):
  - pending asks live in an in-memory queue of callback id to command. This queue is the field `askQueue` of class `Client.Asker`.
  - channel configurations live in class `LegacyStorage.Storage`.
- **Generation 2** (`asker/server.go`, `storage/callbacks.go`, `storage/config.go`):
  - pending asks and channel configurations are Mongo collections. Class `Storage.Database` models them as two maps keyed by `_id`.
  - a callback is kept as the document that would be written: a map from BSON key to value, so the keys the sweep filters on are visible.

Modules:

| module | file | models |
|---|---|---|
| `Results` | results.dfy | `Option`, `Result`, the not-found error |
| `Text` | text.dfy | `strings.Split`/`Join`, `HasPrefix`, ASCII lower-casing, `%d` formatting, UTF-8 byte length |
| `Storage` | storage.dfy | storage/config.go, storage/callbacks.go, and the BSON encoding of a callback |
| `LegacyStorage` | legacy_storage.dfy | asker/storage.go |
| `Dialogs` | dialogs.dfy | asker/dialog.go: the element validator and the default elements |
| `Jira` | jira.dfy | asker/jira.go: component selection and ticket URLs |
| `Commands` | commands.dfy | asker/commands.go: token checks, the built-in dialog, ticket and response construction, and the link parsing and replies both generations share |
| `Client` | client.dfy | asker/client.go (generation 1) |
| `Server` | server.dfy | asker/server.go (generation 2) |
| `Scenarios` | scenarios.dfy | end-to-end request sequences over fresh stores, for both generations |

External effects become parameters:
- The clock is passed in: `nanos` for callback ids and `now` in Unix seconds.
- The outcome of a store write is `fault: Option<string>`. A generation-2 handler makes at most one write per request, so it takes a single `fault`.
- Ticket creation is passed in as `created: Result<string>`: the issue key or the error.
- Posting back to Slack is passed in as `delivery: HttpOutcome`.
- Opening a dialog is returned as its arguments, `DialogOpen(callbackID, triggerID)`. `Commands.SentDialog` gives the dialog that is sent.

## Model

| member | source | states |
|---|---|---|
| `Storage.Database.constructor` | storage/base.go:61-63 | the handle on the database (`DB`); the model starts it from an empty database, as the scenarios assume: no configurations and no callbacks |
| `Storage.Database.SetChannelProject` | storage/config.go:17-25 | replaces the record at the channel id with `{ChannelID, Project}` and empty other fields, erasing stored components; other channels are unchanged; a write fault is returned and changes nothing |
| `Storage.Database.SetChannelConfig` | storage/config.go:27-34 | the record at `config.ChannelID` becomes exactly `config`; other channels are unchanged |
| `Storage.Database.GetChannelConfig` | storage/config.go:36-45 | succeeds exactly when the channel has a record, and returns that record; otherwise "not found" |
| `Storage.Database.StoreCallback` | storage/callbacks.go:30-36 | inserts or replaces the document at the id; every other id is unchanged |
| `Storage.Database.RemoveCallback` | storage/callbacks.go:38-42 | afterwards no document is at the id; removing an absent id succeeds; other ids are unchanged |
| `Storage.Database.GetCallback` | storage/callbacks.go:50-60 | succeeds exactly when a document is at the id, and decodes it with no `Config`; otherwise "not found" |
| `Storage.Database.RemoveStaleCallbacks` | storage/callbacks.go:44-48 | removes exactly the documents whose `action_ts` field is below `now - timeout`, as written |
| `Storage.Database.RemoveExpiredCallbacks` | storage/callbacks.go:44-48 | corrected sweep: keeps exactly the documents whose stored timestamp is at least `now - timeout` |
| `Storage.EncodeCallback` | storage/callbacks.go:11-28 | the document carries `_id`, and the timestamp under key `timestamp`; it has no `action_ts` key |
| `Storage.DecodeCallback` | storage/callbacks.go:50-60 | a read-back command has no `Config`; the timestamp and each of the thirteen string fields is read back from its key, and an absent key leaves the zero value |
| `Storage.MatchesLt` | storage/callbacks.go:46 | the `$lt` filter matches only documents that have the key holding a number below the bound; a missing key or a non-number never matches |
| `Storage.RemoveAllLt` | storage/callbacks.go:44-48 | `RemoveAll` keeps a sub-map of the collection, values unchanged, and an id is kept iff its document does not match the filter |
| `Storage.CallbackRoundTrip` | storage/callbacks.go:27 | decoding an encoded callback gives the command back with `Config` cleared, since the config is not persisted |
| `Storage.StaleSweepMissesStoredCallbacks` | storage/callbacks.go:46 | a sweep filtering on `action_ts` removes nothing from documents that lack that key |
| `Storage.StaleCallbackSurvivesSweep` | storage/callbacks.go:25 | a callback stamped 0 survives the sweep at time 1000 with timeout 300 |
| `Storage.RemoveExpired` | storage/callbacks.go:44-48 | the intended sweep result: a sub-map that keeps every document whose timestamp is recent enough |
| `Storage.RemoveExpiredKeepsFresh` | storage/callbacks.go:44-48 | over stored callbacks, an id survives the intended sweep iff its command's `Timestamp >= now - timeout` |
| `LegacyStorage.Storage.constructor` | asker/storage.go:21-27 | a fresh store has no configurations |
| `LegacyStorage.Storage.SetChannelProject` | asker/storage.go:33-41 | upserts `{ChannelID, Project}` at the channel id with other fields empty; other channels are unchanged |
| `LegacyStorage.Storage.GetChannelConfig` | asker/storage.go:43-52 | succeeds exactly when the channel has a record, and returns it; otherwise "not found" |
| `Dialogs.OptionError` | asker/dialog.go:61-66 | no error iff the option has a label and a value and its label is at most 24 UTF-8 bytes |
| `Dialogs.OptionsError` | asker/dialog.go:60-67 | no error iff every option passes |
| `Dialogs.ElementError` | asker/dialog.go:41-68 | no error iff the name is set, the type is text/textarea/select, the label is set and at most 24 bytes, and a select's options all pass |
| `Dialogs.FirstElementError` | asker/dialog.go:40-69 | no error iff every element passes the checks |
| `Dialogs.FirstElementErrorIsFirst` | asker/dialog.go:40-69 | a reported error is the error of some element in the list |
| `Dialogs.FirstElementErrorSkip` | asker/dialog.go:40-69 | elements that pass do not affect the error reported, so it comes from the first failing element |
| `Dialogs.OptionsErrorSkip` | asker/dialog.go:60-67 | options that pass do not affect the error reported |
| `Dialogs.CheckElements` | asker/dialog.go:40-69 | the validation loop returns the first failing check of the first failing element |
| `Dialogs.DefaultElements` | asker/dialog.go:84-101 | three elements: summary (text), description (textarea) and blocking (select) |
| `Dialogs.Message` | asker/dialog.go:41-66 | each error text names the element, except the missing-name text; a bad type's text also names the type, a long option label's text the label |
| `Dialogs.DefaultElementsShape` | asker/dialog.go:84-101 | the defaults are summary, description and a blocking select defaulting to "no", with options no/yes/911 |
| `Dialogs.DefaultElementsValid` | asker/dialog.go:84-101 | the default elements pass every check of the validator |
| `Dialogs.BlockingElementValid` | asker/dialog.go:88-99 | the blocking select and its three options pass the checks |
| `Dialogs.SummaryElementValid` | asker/dialog.go:86 | the summary element passes the checks |
| `Dialogs.DescriptionElementValid` | asker/dialog.go:87 | the description element passes the checks |
| `Dialogs.BlockingOptionsValid` | asker/dialog.go:94-98 | the options no/yes/911 pass the option checks |
| `Dialogs.NoOptionValid` | asker/dialog.go:95 | option "No"/"no" passes |
| `Dialogs.YesOptionValid` | asker/dialog.go:96 | option "Yes"/"yes" passes |
| `Dialogs.PageOptionValid` | asker/dialog.go:97 | option "I'm about to page!"/"911" passes; its label is 18 bytes |
| `Dialogs.ThreeOptionsValid` | asker/dialog.go:60-67 | a list of three passing options passes |
| `Dialogs.PlainElementValid` | asker/dialog.go:41-55 | a named text or textarea element with a short ASCII label passes |
| `Dialogs.SelectElementValid` | asker/dialog.go:41-68 | a named select with a short ASCII label and passing options passes |
| `Dialogs.AsciiOptionValid` | asker/dialog.go:61-66 | an option with a value and a short ASCII label passes |
| `Dialogs.AsciiLabelFits` | asker/dialog.go:53 | an ASCII label of at most 24 characters is at most 24 bytes |
| `Dialogs.EmptySelectAccepted` | asker/dialog.go:56-59 | any select with no options passes iff its name is set and its label is set and at most 24 bytes: the `len < 0` check never fires |
| `Server.Asker.constructor` | asker/server.go:17-24 | a new handler has the given Jira client and no dialog elements |
| `Server.Asker.SetDialogElements` | asker/dialog.go:33-73 | an empty list installs the defaults with no error; otherwise the elements are installed exactly when they all pass, and on error the elements are unchanged |
| `Server.Asker.GetDialog` | asker/dialog.go:75-82 | the dialog has the callback id, title "Ask a Question", submit label "Ask!" and the current elements, which pass the validator |
| `Jira.MatchesFor` | asker/jira.go:68-72 | one request selects at most as many components as the project has |
| `Jira.ComponentsFor` | asker/jira.go:67-73 | the selection is empty when no names are requested or the project has no components |
| `Jira.ComponentsForBound` | asker/jira.go:67-73 | the selection has at most one entry per (requested name, project component) pair |
| `Jira.GetComponentsForRequest` | asker/jira.go:64-75 | the nested loop returns the selection for each requested name in request order, each in project order, and never an error |
| `Jira.MatchesForSound` | asker/jira.go:69-70 | every selected component is a copy of a project component whose lower-cased name equals the lower-cased request |
| `Jira.MatchesForComplete` | asker/jira.go:69-70 | every project component whose name matches is selected |
| `Jira.NoMatchNoComponents` | asker/jira.go:67-73 | a name that matches nothing contributes nothing |
| `Jira.MatchesForCaseInsensitive` | asker/jira.go:69 | names differing only in ASCII case select the same components |
| `Jira.ComponentsForAppend` | asker/jira.go:67-73 | the selection for concatenated requests is the concatenation of the selections |
| `Jira.ComponentsForSingle` | asker/jira.go:67-73 | a single request selects exactly its matches, so a repeated name yields repeated output |
| `Jira.ComponentsForSound` | asker/jira.go:67-73 | every output element copies a project component that matches some requested name |
| `Jira.ComponentsForComplete` | asker/jira.go:67-73 | every project component matching some requested name is in the output |
| `Jira.GetTicketURL` | asker/jira.go:77-83 | the URL is the public endpoint when set, else the API endpoint, followed by `/browse/` and the key |
| `Jira.TicketURLKey` | asker/jira.go:77-83 | the key is the URL's tail |
| `Jira.TicketURLInjective` | asker/jira.go:77-83 | distinct keys give distinct URLs |
| `Commands.ParseSlashCommand` | asker/commands.go:102-107 | succeeds iff the form token equals the configured token; on success only `Timestamp` changes, and it becomes `now`; otherwise the invalid-token error |
| `Commands.ParseInteractiveRequest` | asker/commands.go:121-124 | succeeds iff the payload token equals the configured token, returning the payload unchanged; otherwise the invalid-token error |
| `Commands.BuiltinDialog` | asker/commands.go:128-148 | the dialog has the callback id, the title and submit label, three elements starting summary/description, and passes the validator |
| `Commands.SentDialog` | asker/commands.go:127-169 | the dialog sent for an ask carries its callback id and passes the validator |
| `Commands.FormValue` | asker/commands.go:181-182 | a submission value is the map's entry, or empty when the key is absent |
| `Commands.TicketFor` | asker/commands.go:178-184 | username from the ask, summary and description from the submission, project key and components from the ask's config |
| `Commands.AskResultResponse` | asker/commands.go:188-198 | "in_channel" iff the issue was created; a failure reply embeds the error; a success reply mentions the user id, the summary, the ticket URL and the key |
| `Commands.FailureTextMentions` | asker/commands.go:191 | the failure text contains the error |
| `Commands.SuccessTextMentions` | asker/commands.go:196 | the success text contains the user id, the summary, the URL and the key |
| `Commands.DeliveryError` | asker/commands.go:211-222 | no error iff Slack answered 200; a transport error is passed through; another status gives "Slack server error: <status>." |
| `Commands.PostAskResult` | asker/commands.go:177-223 | the ticket comes from the ask and its config, the response goes to the ask's response URL, it is "in_channel" iff created, and the result is an error iff delivery did not get a 200 |
| `Commands.LinkProject` | asker/server.go:88-97 | succeeds iff the first space-separated field is "link", and returns the second field (which has no space); otherwise the invalid-command error |
| `Commands.LinkTarget` | asker/server.go:148-150 | after the `link ` prefix, the project is the text up to the next space or the end |
| `Commands.LinkPrefixParses` | asker/server.go:148-150 | text with prefix `link ` has at least two fields, and the link succeeds with that project |
| `Commands.LinkEmptyProject` | asker/client.go:63-72 | `link ` with nothing after it links the empty project |
| `Client.AskCallbackID` | asker/client.go:122 | the id starts with `ask-` |
| `Client.AskCallbackIDInjective` | asker/client.go:122 | distinct clock readings give distinct callback ids |
| `Client.FreshEntries` | asker/client.go:177-183 | the swept queue is a sub-map of the queue with the values unchanged |
| `Client.FreshEntriesKeeps` | asker/client.go:179 | an entry survives iff `Timestamp >= now - 300` |
| `Client.FreshEntriesIdempotent` | asker/client.go:177-183 | sweeping twice at the same time equals sweeping once |
| `Client.FreshEntriesMonotone` | asker/client.go:177-183 | a later sweep keeps no more than an earlier one, and after an earlier sweep a later sweep equals the later sweep alone |
| `Client.Asker.constructor` | asker/client.go:24 | a new handler has the given client and store and an empty queue |
| `Client.Asker.HandleChannelLink` | asker/client.go:63-72 | the second space-separated field is stored as the project when the first is "link", and other channels are unchanged; otherwise the invalid-command error and no write |
| `Client.Asker.AskHandler` | asker/client.go:79-130 | text exactly "config" only reads the config; `link ` only links; otherwise an unlinked channel gets the link hint and nothing changes, and a linked one gets exactly one queue entry at `ask-<nanos>` holding the command with the config fetched now, and the dialog is opened for that id |
| `Client.Asker.RequestHandler` | asker/client.go:132-150 | a queued callback is posted with its stored command and creation-time config, then deleted whether or not posting failed; an unknown id changes nothing; the reply is always 200 |
| `Client.Asker.RemoveQueueItems` | asker/client.go:177-183 | the loop leaves exactly the entries with `Timestamp >= now - 300`, values unchanged |
| `Server.CallbackID` | asker/server.go:172 | the id starts with `ask-` |
| `Server.TrailingDigits` | asker/server.go:172 | counts at most the whole id |
| `Server.TrailingDigitsAfterDash` | asker/server.go:172 | in `<p>-<digits>` the trailing digits are exactly the clock part |
| `Server.CallbackIDInjective` | asker/server.go:172 | distinct (channel, clock) pairs give distinct callback ids |
| `Server.ComponentsTextHint` | asker/server.go:115-119 | empty components, or one empty component, show the "None!" hint; anything else is the `", "`-joined list, which is non-empty |
| `Server.ComponentsText` | asker/server.go:115-119 | the components text is never empty and contains every component |
| `Server.ComponentsSetMessage` | asker/server.go:129 | the confirmation names the project and every component stored |
| `Server.ConfigCommandOutcome` | asker/server.go:104-135 | only the channel's own record can change; 400 iff the lookup succeeded and the subcommand is neither absent nor `components`, or the write failed; a lookup failure replies 200 with the link hint and writes nothing; whenever the second word is `components` on a linked channel and the write succeeds, the words after it are stored and the confirmation is sent; a bare `config` replies 200 with the project and the components, or "None!" |
| `Server.ConfigComponentsCleared` | asker/server.go:121-130 | a bare `config components` on a linked channel stores an empty component list and keeps the other fields |
| `Server.ConfigComponentsStored` | asker/server.go:121-130 | `config components <rest>` stores exactly the space-separated words of `rest`, in order, and keeps the other fields |
| `Server.Asker.HandleChannelLink` | asker/server.go:88-97 | as `Client.Asker.HandleChannelLink`, over the store |
| `Server.Asker.HandleConfigCommand` | asker/server.go:104-135 | the reply and the new configurations are exactly `ConfigCommandOutcome` of the old ones |
| `Server.Asker.AskHandler` | asker/server.go:137-188 | prefix "config" goes to the config command, then prefix `link ` to linking; otherwise an unlinked channel gets the link hint and no callback is stored; a linked one has its command stored at `ask-<channel>-<nanos>` before the dialog opens, and a store fault replies 500 and opens no dialog |
| `Server.Asker.DialogRequestHandler` | asker/server.go:190-222 | a stored callback is decoded and filed with the channel config as it is at submit time, then removed, and the reply is 200; a missing callback replies 400 "lost this request" and files nothing, preceded by the missing-configuration text when the channel has no configuration |
| `Server.Asker.CleanQueueTick` | asker/server.go:241-250 | one tick of the sweep with the 300-second timeout leaves every stored callback in place |
| `Text.Split` | asker/server.go:89 | there is at least one field, and no field contains the separator |
| `Text.JoinSplit` | asker/server.go:105 | joining the fields with the separator gives the text back |
| `Text.SplitWithoutSep` | asker/server.go:114 | text without the separator is a single field |
| `Text.SingleFieldIff` | asker/server.go:114 | the text splits into one field iff it has no separator |
| `Text.SplitAfter` | asker/server.go:105 | splitting `p<sep>rest` gives `p` followed by the fields of `rest` |
| `Text.FirstField` | asker/server.go:89-90 | the first field is a prefix of the text, ending at the end or at a separator |
| `Text.Join` | asker/server.go:116 | the joined string starts with the first part |
| `Text.JoinContains` | asker/server.go:116 | every part occurs in the joined string |
| `Text.InfixTrans` | asker/server.go:129 | an infix of an infix is an infix |
| `Text.HasPrefix` | asker/server.go:145 | `s` has prefix `p` iff `s` is `p` followed by the rest of `s` |
| `Text.ToLower` | asker/jira.go:69 | lower-casing keeps the length, leaves no upper-case ASCII letter, and keeps every other character |
| `Text.ToLowerIdempotent` | asker/jira.go:69 | lower-casing twice is lower-casing once |
| `Text.InfixOfConcat` | asker/commands.go:196 | a value formatted between two strings is contained in the result |
| `Text.NatToDecimal` | asker/server.go:172 | the decimal rendering is non-empty and all digits |
| `Text.DecimalRoundTrip` | asker/server.go:172 | reading the decimal rendering back gives the number |
| `Text.NatToDecimalInjective` | asker/server.go:172 | distinct numbers render differently |
| `Text.Utf8Length` | asker/dialog.go:53 | a string's byte length is between its length and four times its length |
| `Text.AsciiUtf8Length` | asker/dialog.go:53 | an ASCII string's byte length is its length |
| `Scenarios.SlashFrom` | asker/commands.go:47-63 | builds a command for a channel, text and time, with no config |
| `Scenarios.SubmissionFor` | asker/commands.go:36-45 | builds a submission for a channel and callback whose summary is the given one |
| `Scenarios.LinkTargetOf` | asker/server.go:145-150 | `link <P>` routes to linking and names `P` |
| `Scenarios.Gen2LinkAskSubmit` | asker/server.go:137-222 | link, ask, submit: the dialog opens for `ask-<channel>-<nanos>`, the ticket is filed in the linked project, the reply is "in_channel" with the key, and no callback remains |
| `Scenarios.Gen2UnknownCallback` | asker/server.go:213-217 | a submission for a callback never stored replies 400 "lost this request" and files nothing |
| `Scenarios.Gen2UnlinkedSubmission` | asker/server.go:200-217 | a submission from an unlinked channel for an unknown callback replies 400 with the missing-configuration and lost-request texts and files nothing |
| `Scenarios.Gen1UnknownCallback` | asker/client.go:140-149 | a submission for an unknown id replies 200 and files nothing |
| `Scenarios.AskUnlinked` | asker/server.go:161-168 | in both generations an ask on an unlinked channel replies with the link hint and queues nothing |
| `Scenarios.SetComponents` | asker/server.go:121-130 | link then `config components A B` stores the project with components `[A, B]` |
| `Scenarios.Gen1FilesWithSnapshot` | asker/client.go:121-123 | generation 1 files in the project linked at ask time, even after a relink |
| `Scenarios.Gen2FilesWithLiveConfig` | asker/server.go:200-208 | generation 2 files in the project linked at submit time |
| `Scenarios.RelinkErasesComponents` | storage/config.go:17-25 | linking again erases the components set before |
| `Scenarios.Gen1ReplayFilesOnce` | asker/client.go:140-149 | a repeated submission files once; both replies are 200 |
| `Scenarios.Gen2ReplayFilesOnce` | asker/server.go:207-217 | a repeated submission files once; the second reply is 400 "lost this request" |
| `Scenarios.Gen1SweepExpires` | asker/client.go:177-183 | a queued ask survives a sweep 300 s after its stamp and is gone 301 s after |
| `Scenarios.Gen2SweepAsWrittenKeepsStale` | storage/callbacks.go:44-48 | a callback older than the timeout survives the sweep as written, and the corrected sweep removes it |

## Left out

- HTTP serving and routing, `StorageMiddleware`, `RootHandler`, `OptionsHandler` and `GetGroups` are I/O plumbing. Form and JSON decoding and encoding are not modelled either: handlers take already-parsed records.
- The outbound Slack calls (asker/slack.go) and the network send in `OpenDialog` are effects. The dialog's arguments are returned, and the send's result, which the source ignores, is not modelled. The HTTP POST in `PostAskResult` is the `delivery` parameter.
- The Jira client's `NewJira`, `CreateIssue` and `GetComponents` are foreign network calls. Issue creation is the `created` parameter.
- JSON marshalling errors in `PostAskResult` and `OpenDialog` are not modelled. Marshalling these plain records does not fail.
- The Mongo session and driver wrappers in storage/base.go are not modelled. Each collection is a map keyed by `_id`, and a read error is treated as not-found, as every caller does. Two replies quote the driver's error text (asker/client.go:93 and asker/server.go:110); the model quotes "not found" in its place.
- A write fault means that nothing was written. The driver can apply a write and still report an error, for example on a write-concern timeout. The model cannot express an applied write that reports an error.
- The `CleanQueue` timer loops, the goroutines, and the unsynchronised concurrent access to the generation-1 queue are left out. One sweep is a sequential step that takes `now`.
- Server.Asker.CleanQueueTick states only what the sweep does to the store. The source starts the sweep in a goroutine on a session copy and closes that session on the next line. A sweep that runs after the close finds the session closed, and the driver then panics inside the goroutine, which would end the process (not executed). The model does not say whether the tick completes.
- The generation-1 queue is a package global in the source. Here it is a field of `Client.Asker`, because only that handler uses it.
- `time.Now` is a parameter: `nanos` for callback ids and `now` for timestamps, as unbounded naturals and integers. Callback-id uniqueness is stated as injectivity in the clock reading.
- Client.Asker.RemoveQueueItems: the source re-reads the clock on each iteration; the model uses one `now` for the whole sweep.
- Client.Asker.AskHandler, Client.Asker.RequestHandler, Server.Asker.AskHandler and Server.Asker.DialogRequestHandler take the parsed command or submission. On a parse failure the source writes 400 and then continues into a nil dereference, so that path is not modelled.
- Server.Asker.DialogRequestHandler requires the channel's configuration to exist whenever the callback is stored. If the configuration is missing and the callback is stored, the source reads the ask's nil `Config` when it builds the ticket and panics. No ticket is filed and the callback stays, and the model does not cover this case. If the configuration is missing and the callback is not stored, the source replies 400 with both texts; this case is modelled.
- Client.Asker.HandleChannelLink and Server.Asker.HandleChannelLink require at least two space-separated fields. The source indexes the second field unchecked and panics otherwise; the handlers only call them with a `link ` prefix, which guarantees two fields.
- `strings.ToLower` is modelled as ASCII lower-casing, not full Unicode case folding.
- Replies that the source builds with `Sprintf` and then passes to `Fprintf` as a format string are modelled as the `Sprintf` text. A `%` inside user text would be reinterpreted by `Fprintf`; that is not modelled.
- The `len(element.Options) < 0` branch of the validator can never be taken and has no counterpart in `Dialogs.ElementError`.
- The generation-1 `ChannelConfig` has no component list. It is modelled by the generation-2 record with `Components` always empty, which is what that store writes.
- asker/commands.go declares its own `DialogOption`, `DialogElement` and `Dialog` types; its `DialogElement` has fewer fields than the one in asker/dialog.go. The model uses the asker/dialog.go types for both.
- asker/commands.go also declares its own `SlashCommand`, which has no bson tags. The generation-2 handlers take the `storage.SlashCommand` of storage/callbacks.go. The model uses that one record, `Storage.SlashCommand`, for both generations; the generation-1 queue never persists it, so its missing tags change nothing.
- Logging (`log.Printf`) has no effect on the model's state or replies and is left out. The error from `http.NewRequest` in `PostAskResult` (asker/commands.go:206) is ignored by the source; the model assumes the request is built.
- cmd/root.go, which does command-line and configuration loading, is not part of this model.

## Findings

| source | as written | input that shows it | evidently intended | confidence | as-written member | corrected member |
|---|---|---|---|---|---|---|
| storage/callbacks.go:46 | the stale sweep removes callbacks whose `action_ts` is below `now - timeout`, but `SlashCommand.Timestamp` has no bson tag (storage/callbacks.go:25) and is stored under `timestamp`, so no stored callback has `action_ts` and the sweep removes nothing | a callback stamped 0 at id `ask-C1-1`, swept at time 1000 with timeout 300 (`Server.Asker.CleanQueueTick` uses the sweep as written) | remove callbacks whose stored timestamp is below `now - timeout` | not executed | `Storage.StaleCallbackSurvivesSweep` | `Storage.RemoveExpiredKeepsFresh` |
