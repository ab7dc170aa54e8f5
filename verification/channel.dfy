/** Channel selection (src/module/channel.rs): the channel a run uses is the one stored
    in the local data file, or `default`; choosing a channel writes the local data file
    and takes effect from the next run. The local data file's contents are a parameter. */
module Channel {
  import opened Common
  import Paths
  import Config
  import Server

  /** The stored local data this module reads and writes. */
  datatype LocalData = LocalData(usingChannel: Option<string>)

  const DefaultChannel := "default"

  datatype ChannelManager = ChannelManager(channelPath: string, channel: string)

  /** `ChannelManager::new`: the stored channel, else `default`; channels live under
      `channel` in the appdata directory. */
  function New(config: Config.LocalConfig, stored: LocalData): (m: ChannelManager)
    ensures stored.usingChannel.Some? ==> m.channel == stored.usingChannel.value
    ensures stored.usingChannel.None? ==> m.channel == DefaultChannel
    ensures m.channelPath == Paths.Join(config.appdataPath, "channel")
  {
    ChannelManager(Paths.Join(config.appdataPath, "channel"), stored.usingChannel.GetOr(DefaultChannel))
  }

  function CurrentChannel(m: ChannelManager): string
  {
    m.channel
  }

  /** `use_channel`: the local data written. The running manager keeps its channel. */
  function UseChannel(m: ChannelManager, channel: string): (written: LocalData)
    ensures written.usingChannel == Some(channel)
  {
    LocalData(Some(channel))
  }

  /** A channel chosen now is the current channel of every later run, whatever channel the
      choosing manager had. (`UseChannel` returns only the data written, so the manager
      that chose it keeps reporting the channel it started with.) */
  lemma UsedChannelIsNextCurrent(config: Config.LocalConfig, stored: LocalData, channel: string)
    ensures CurrentChannel(New(config, UseChannel(New(config, stored), channel))) == channel
  {
  }

  /** The server's working directory for the current channel is the channel's entry in
      the manager's channel directory, so server files are kept apart per channel. */
  lemma ServerDirIsChannelEntry(config: Config.LocalConfig, stored: LocalData)
    ensures var m := New(config, stored);
      Server.ChannelDir(Server.ServerConfig(config.serverPath, config.appdataPath), CurrentChannel(m))
        == Paths.Join(m.channelPath, CurrentChannel(m))
  {
  }
}
