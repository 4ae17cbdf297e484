/** The generation-1 configuration store (asker/storage.go): one collection of
    channel configurations keyed by channel id. Its record has no component
    list; it is modelled by the generation-2 record with `Components` always
    empty, which is what every record this store writes looks like. */
module LegacyStorage {
  import opened Results
  import Gen2 = Storage

  type ChannelConfig = Gen2.ChannelConfig

  class Storage {
    var configs: map<string, ChannelConfig>

    /** Every record sits under its own channel id and has no components. */
    ghost predicate Valid()
      reads this
    {
      forall ch :: ch in configs ==> configs[ch].ChannelID == ch && configs[ch].Components == []
    }

    constructor ()
      ensures Valid() && configs == map[]
    {
      configs := map[];
    }

    /** Upserts `{ChannelID: channelID, Project: project}` at `channelID`, the
        other fields empty. */
    method SetChannelProject(channelID: string, project: string, fault: Option<string>) returns (err: Option<string>)
      requires Valid()
      modifies this`configs
      ensures Valid()
      ensures err == fault
      ensures configs == if fault.None?
        then old(configs)[channelID := Gen2.ChannelConfig(channelID, "", project, [], "")]
        else old(configs)
    {
      err := fault;
      if fault.None? {
        configs := configs[channelID := Gen2.ChannelConfig(channelID, "", project, [], "")];
      }
    }

    /** Point lookup by channel id; an absent channel is "not found". */
    method GetChannelConfig(channelID: string) returns (r: Result<ChannelConfig>)
      requires Valid()
      ensures r.Success? <==> channelID in configs
      ensures r.Success? ==> r.value == configs[channelID] && r.value.ChannelID == channelID && r.value.Components == []
      ensures r.Failure? ==> r.error == ErrNotFound
    {
      if channelID in configs {
        r := Success(configs[channelID]);
      } else {
        r := Failure(ErrNotFound);
      }
    }
  }
}
