/** The generation-2 data layer (package `storage`): one Mongo database with
    two collections keyed by `_id`, the channel configurations and the pending
    callbacks. Each collection is a map from `_id` to what is stored there.
    Channel configurations round-trip through the driver unchanged, so they are
    kept as records; callbacks are kept as the documents the driver writes,
    because which fields reach the document, and under which keys, decides
    what the stale sweep can see. A write takes the driver's outcome as a
    parameter `fault` (None: acknowledged; Some(e): the driver reported `e` and
    nothing was written). */
module Storage {
  import opened Results

  /** A channel's link to a tracker project (storage/config.go). */
  datatype ChannelConfig = ChannelConfig(
    ChannelID: string,
    ChannelName: string,
    Project: string,
    Components: seq<string>,
    AssignEndpoint: string)

  /** An inbound slash command. `Timestamp` is stamped when the command is
      parsed; `Config` is attached by the ask handler and is never persisted. */
  datatype SlashCommand = SlashCommand(
    Token: string,
    TeamID: string,
    TeamDomain: string,
    EnterpriseID: string,
    EnterpriseName: string,
    ChannelID: string,
    ChannelName: string,
    UserID: string,
    UserName: string,
    Command: string,
    Text: string,
    ResponseURL: string,
    TriggerID: string,
    Timestamp: int,
    Config: Option<ChannelConfig>)

  // ---------------------------------------------------------------------------
  // Persisted callback documents

  datatype BsonValue = BStr(s: string) | BInt(i: int)

  type Document = map<string, BsonValue>

  /** The key the driver gives the untagged `Timestamp` field: its name in
      lower case. */
  const TimestampKey: string := "timestamp"

  /** The key the stale sweep filters on. */
  const StaleFilterKey: string := "action_ts"

  /** The document `UpsertId(id, command)` stores: `_id`, then every field under
      its bson tag or, without a tag, its lower-cased name; `Config` is
      excluded by its `bson:"-"` tag. */
  function EncodeCallback(id: string, c: SlashCommand): (d: Document)
    ensures "_id" in d && d["_id"] == BStr(id)
    ensures TimestampKey in d && d[TimestampKey] == BInt(c.Timestamp)
    ensures StaleFilterKey !in d
  {
    map[
      "_id" := BStr(id),
      "token" := BStr(c.Token),
      "team_id" := BStr(c.TeamID),
      "team_domain" := BStr(c.TeamDomain),
      "enterprise_id" := BStr(c.EnterpriseID),
      "enterprise_name" := BStr(c.EnterpriseName),
      "channel_id" := BStr(c.ChannelID),
      "channel_name" := BStr(c.ChannelName),
      "user_id" := BStr(c.UserID),
      "user_name" := BStr(c.UserName),
      "command" := BStr(c.Command),
      "text" := BStr(c.Text),
      "response_url" := BStr(c.ResponseURL),
      "trigger_id" := BStr(c.TriggerID),
      "timestamp" := BInt(c.Timestamp)
    ]
  }

  function StrField(d: Document, key: string): string {
    if key in d && d[key].BStr? then d[key].s else ""
  }

  function IntField(d: Document, key: string): int {
    if key in d && d[key].BInt? then d[key].i else 0
  }

  /** A string field decoded from `key`: the stored string when the key holds
      one, and the empty string when the key is absent. */
  predicate ReadBack(d: Document, key: string, v: string) {
    && (key in d && d[key].BStr? ==> v == d[key].s)
    && (key !in d ==> v == "")
  }

  /** Decoding a document into a zero `SlashCommand`: absent keys leave the
      zero value, and `Config` stays nil. */
  function DecodeCallback(d: Document): (c: SlashCommand)
    ensures c.Config.None?
    ensures TimestampKey in d && d[TimestampKey].BInt? ==> c.Timestamp == d[TimestampKey].i
    ensures TimestampKey !in d ==> c.Timestamp == 0
    ensures ReadBack(d, "token", c.Token) && ReadBack(d, "team_id", c.TeamID)
    ensures ReadBack(d, "team_domain", c.TeamDomain) && ReadBack(d, "enterprise_id", c.EnterpriseID)
    ensures ReadBack(d, "enterprise_name", c.EnterpriseName)
    ensures ReadBack(d, "channel_id", c.ChannelID) && ReadBack(d, "channel_name", c.ChannelName)
    ensures ReadBack(d, "user_id", c.UserID) && ReadBack(d, "user_name", c.UserName)
    ensures ReadBack(d, "command", c.Command) && ReadBack(d, "text", c.Text)
    ensures ReadBack(d, "response_url", c.ResponseURL) && ReadBack(d, "trigger_id", c.TriggerID)
  {
    SlashCommand(
      StrField(d, "token"), StrField(d, "team_id"), StrField(d, "team_domain"),
      StrField(d, "enterprise_id"), StrField(d, "enterprise_name"),
      StrField(d, "channel_id"), StrField(d, "channel_name"),
      StrField(d, "user_id"), StrField(d, "user_name"),
      StrField(d, "command"), StrField(d, "text"),
      StrField(d, "response_url"), StrField(d, "trigger_id"),
      IntField(d, "timestamp"),
      None)
  }

  /** Reading back a stored callback gives every persisted field of the
      command; only the attached `Config` is lost. */
  lemma CallbackRoundTrip(id: string, c: SlashCommand)
    ensures DecodeCallback(EncodeCallback(id, c)) == c.(Config := None)
  {
  }

  /** Mongo's `{key: {$lt: bound}}`: the field is present, numeric, and below
      the bound. A missing field never matches. */
  predicate MatchesLt(d: Document, key: string, bound: int): (m: bool)
    ensures m ==> key in d
    ensures key in d && d[key].BInt? ==> (m <==> d[key].i < bound)
    ensures key in d && !d[key].BInt? ==> !m
  {
    key in d && d[key].BInt? && d[key].i < bound
  }

  /** `RemoveAll({key: {$lt: bound}})` over a collection. */
  function RemoveAllLt(docs: map<string, Document>, key: string, bound: int): (r: map<string, Document>)
    ensures forall id :: id in r ==> id in docs && r[id] == docs[id]
    ensures forall id :: id in docs ==> (id in r <==> !MatchesLt(docs[id], key, bound))
  {
    map id | id in docs && !MatchesLt(docs[id], key, bound) :: docs[id]
  }

  /** As written, the sweep's filter key is absent from every document that
      `StoreCallback` writes, so the sweep removes nothing, whatever the
      bound. */
  lemma {:induction false} StaleSweepMissesStoredCallbacks(docs: map<string, Document>, bound: int)
    requires forall id :: id in docs ==> StaleFilterKey !in docs[id]
    ensures RemoveAllLt(docs, StaleFilterKey, bound) == docs
  {
    var r := RemoveAllLt(docs, StaleFilterKey, bound);
    assert r.Keys == docs.Keys;
  }

  /** A concrete witness: a callback stamped at second 0, swept at second 1000
      with the 300-second timeout, is older than the cutoff and still stays. */
  lemma StaleCallbackSurvivesSweep(c: SlashCommand)
    requires c.Timestamp == 0
    ensures c.Timestamp < 1000 - 300
    ensures "ask-C1-1" in RemoveAllLt(map["ask-C1-1" := EncodeCallback("ask-C1-1", c)], StaleFilterKey, 1000 - 300)
  {
  }

  /** The evidently intended sweep: the same `RemoveAll`, filtering on the key
      the timestamp is actually stored under. Over stored callbacks it keeps
      exactly those stamped no earlier than `now - timeout`. */
  function RemoveExpired(docs: map<string, Document>, timeout: int, now: int): (r: map<string, Document>)
    ensures forall id :: id in r ==> id in docs && r[id] == docs[id]
    ensures forall id :: id in docs && TimestampKey in docs[id] && docs[id][TimestampKey].BInt? ==>
      (id in r <==> docs[id][TimestampKey].i >= now - timeout)
  {
    RemoveAllLt(docs, TimestampKey, now - timeout)
  }

  /** Over documents written by `StoreCallback`, the intended sweep keeps a
      callback exactly when its command's `Timestamp` is within the timeout. */
  lemma {:induction false} RemoveExpiredKeepsFresh(docs: map<string, Document>, cmds: map<string, SlashCommand>, timeout: int, now: int)
    requires docs.Keys == cmds.Keys
    requires forall id :: id in docs ==> docs[id] == EncodeCallback(id, cmds[id])
    ensures forall id :: id in RemoveExpired(docs, timeout, now) <==> id in cmds && cmds[id].Timestamp >= now - timeout
  {
    forall id | id in cmds
      ensures id in RemoveExpired(docs, timeout, now) <==> cmds[id].Timestamp >= now - timeout
    {
      assert docs[id][TimestampKey] == BInt(cmds[id].Timestamp);
    }
  }

  // ---------------------------------------------------------------------------
  // The database

  /** Every configuration sits under its own channel id, as an upsert by
      `ChannelID` leaves it. */
  predicate KeyedByChannel(configs: map<string, ChannelConfig>) {
    forall ch :: ch in configs ==> configs[ch].ChannelID == ch
  }

  /** The `DataLayer` of one request: the two collections. */
  class Database {
    var configs: map<string, ChannelConfig>
    var callbacks: map<string, Document>

    /** Every configuration sits under its own channel id, and no stored
        callback carries the sweep's filter key. */
    ghost predicate Valid()
      reads this
    {
      && KeyedByChannel(configs)
      && (forall id :: id in callbacks ==> StaleFilterKey !in callbacks[id])
    }

    constructor ()
      ensures Valid()
      ensures configs == map[] && callbacks == map[]
    {
      configs := map[];
      callbacks := map[];
    }

    /** Upserts `{ChannelID: channelID, Project: project}` at `channelID`,
        replacing the whole record: name, components and assignment endpoint
        become empty. */
    method SetChannelProject(channelID: string, project: string, fault: Option<string>) returns (err: Option<string>)
      requires Valid()
      modifies this`configs
      ensures Valid()
      ensures err == fault
      ensures configs == if fault.None?
        then old(configs)[channelID := ChannelConfig(channelID, "", project, [], "")]
        else old(configs)
    {
      err := fault;
      if fault.None? {
        configs := configs[channelID := ChannelConfig(channelID, "", project, [], "")];
      }
    }

    /** Upserts the whole record at `config.ChannelID`. */
    method SetChannelConfig(config: ChannelConfig, fault: Option<string>) returns (err: Option<string>)
      requires Valid()
      modifies this`configs
      ensures Valid()
      ensures err == fault
      ensures configs == if fault.None? then old(configs)[config.ChannelID := config] else old(configs)
    {
      err := fault;
      if fault.None? {
        configs := configs[config.ChannelID := config];
      }
    }

    /** Point lookup by channel id; a never-linked channel is "not found". */
    method GetChannelConfig(channelID: string) returns (r: Result<ChannelConfig>)
      requires Valid()
      ensures r.Success? <==> channelID in configs
      ensures r.Success? ==> r.value == configs[channelID] && r.value.ChannelID == channelID
      ensures r.Failure? ==> r.error == ErrNotFound
    {
      if channelID in configs {
        r := Success(configs[channelID]);
      } else {
        r := Failure(ErrNotFound);
      }
    }

    /** Upserts the command's document at `callbackID`. */
    method StoreCallback(callbackID: string, command: SlashCommand, fault: Option<string>) returns (err: Option<string>)
      requires Valid()
      modifies this`callbacks
      ensures Valid()
      ensures err == fault
      ensures callbacks == if fault.None?
        then old(callbacks)[callbackID := EncodeCallback(callbackID, command)]
        else old(callbacks)
    {
      err := fault;
      if fault.None? {
        callbacks := callbacks[callbackID := EncodeCallback(callbackID, command)];
      }
    }

    /** `RemoveAll({_id: callbackID})`: removing an absent id is no error. */
    method RemoveCallback(callbackID: string, fault: Option<string>) returns (err: Option<string>)
      requires Valid()
      modifies this`callbacks
      ensures Valid()
      ensures err == fault
      ensures callbacks == if fault.None? then old(callbacks) - {callbackID} else old(callbacks)
    {
      err := fault;
      if fault.None? {
        callbacks := callbacks - {callbackID};
      }
    }

    /** `RemoveAll({action_ts: {$lt: now - timeout}})`, as written. */
    method RemoveStaleCallbacks(timeout: int, now: int, fault: Option<string>) returns (err: Option<string>)
      requires Valid()
      modifies this`callbacks
      ensures Valid()
      ensures err == fault
      ensures callbacks == if fault.None?
        then RemoveAllLt(old(callbacks), StaleFilterKey, now - timeout)
        else old(callbacks)
    {
      err := fault;
      if fault.None? {
        callbacks := RemoveAllLt(callbacks, StaleFilterKey, now - timeout);
      }
    }

    /** The sweep as evidently intended, filtering on the key the timestamp
        is stored under. */
    method RemoveExpiredCallbacks(timeout: int, now: int, fault: Option<string>) returns (err: Option<string>)
      requires Valid()
      modifies this`callbacks
      ensures Valid()
      ensures err == fault
      ensures callbacks == if fault.None? then RemoveExpired(old(callbacks), timeout, now) else old(callbacks)
    {
      err := fault;
      if fault.None? {
        callbacks := RemoveAllLt(callbacks, TimestampKey, now - timeout);
      }
    }

    /** Point lookup by callback id, decoding the stored document. */
    method GetCallback(callbackID: string) returns (r: Result<SlashCommand>)
      ensures r.Success? <==> callbackID in callbacks
      ensures r.Success? ==> r.value == DecodeCallback(callbacks[callbackID]) && r.value.Config.None?
      ensures r.Failure? ==> r.error == ErrNotFound
    {
      if callbackID in callbacks {
        r := Success(DecodeCallback(callbacks[callbackID]));
      } else {
        r := Failure(ErrNotFound);
      }
    }
  }
}
