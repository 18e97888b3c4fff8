/**
 * The routing table of one audio device: its name, its desired latency, and
 * for each of its output channels the list of audio groups routed to it with
 * a left and a right volume. The table is edited one group at a time and
 * saved to, and loaded from, the `AudioDevices` group of the user settings.
 */
module AudioDeviceConfig {
  import opened ConfigStore

  /** The latency a device gets when none is configured. */
  const DEFAULT_LATENCY: nat := 50

  /** The volume the audio-groups constructor gives every entry. */
  const DEFAULT_VOLUME: Volume

  /** What reading a left or right volume yields when the entry is missing. */
  const UNREAD_VOLUME: Volume

  /** The bounds Load brings the latency, the channel count and each group count into. */
  const MAX_LATENCY: nat := 999
  const MAX_CHANNELS: nat := 200
  const MAX_GROUPS: nat := 200

  /** The pair of volumes of one routed group. */
  datatype StereoVolume = StereoVolume(left: Volume, right: Volume)

  /** One audio group routed to a channel. */
  datatype GroupOutput = GroupOutput(name: string, volumes: StereoVolume)

  // ---------------------------------------------------------------------------
  // Keys of the saved device, all in the `AudioDevices` group
  // ---------------------------------------------------------------------------

  datatype GroupField = GroupName | Left | Right

  /** Within `Channel%03d`: the group count, or a field of `Group%03d`. */
  datatype ChannelField = GroupCount | Group(group: nat, field: GroupField)

  /** Within `Device%03d`: the name, the channel count, the latency, or a field of `Channel%03d`. */
  datatype DeviceField = Name | ChannelCount | Latency | Channel(channel: nat, field: ChannelField)

  datatype AudioKey = AudioKey(device: nat, field: DeviceField)

  // ---------------------------------------------------------------------------
  // SetOutputVolume
  // ---------------------------------------------------------------------------

  /** The position of the first group named `name`, or `|groups|` when there is none. */
  function FirstNamed(groups: seq<GroupOutput>, name: string): (i: nat)
    ensures i <= |groups|
    ensures i < |groups| ==> groups[i].name == name
    ensures forall j :: 0 <= j < i ==> groups[j].name != name
    decreases |groups|
  {
    if groups == [] then 0
    else if groups[0].name == name then 0
    else 1 + FirstNamed(groups[1..], name)
  }

  /**
   * A channel's list after SetOutputVolume: when no group has the name, a new
   * entry built from `volumeFor` is appended; otherwise the first group with
   * the name gets its volumes set by `setVolume`. `volumeFor` and
   * `setVolume` stand for the program's `volumeFor` and
   * `GroupOutput::SetVolume`, whose bodies are not part of this model.
   */
  function UpdatedGroups(groups: seq<GroupOutput>, name: string, isLeft: bool, vol: Volume,
                         volumeFor: (bool, bool, Volume) -> Volume,
                         setVolume: (StereoVolume, bool, Volume) -> StereoVolume): seq<GroupOutput>
  {
    var i := FirstNamed(groups, name);
    if i == |groups| then
      groups + [GroupOutput(name, StereoVolume(volumeFor(true, isLeft, vol), volumeFor(false, isLeft, vol)))]
    else
      groups[i := GroupOutput(groups[i].name, setVolume(groups[i].volumes, isLeft, vol))]
  }

  /** The search of SetOutputVolume: the first group named `name`, or `|groups|`. */
  method FindGroup(groups: seq<GroupOutput>, name: string) returns (i: nat)
    ensures i == FirstNamed(groups, name)
  {
    i := 0;
    while i < |groups|
      invariant i <= |groups|
      invariant forall j :: 0 <= j < i ==> groups[j].name != name
    {
      if groups[i].name == name {
        return;
      }
      i := i + 1;
    }
  }

  /** Whether no two groups of the list share a name. */
  predicate DistinctNames(groups: seq<GroupOutput>) {
    forall i, j :: 0 <= i < j < |groups| ==> groups[i].name != groups[j].name
  }

  // ---------------------------------------------------------------------------
  // Save
  // ---------------------------------------------------------------------------

  /** The store after writing the first `k` groups of channel number `ch` of device `dev`. */
  function SavedGroups(cfg: Store<AudioKey>, dev: nat, ch: nat, groups: seq<GroupOutput>, k: nat): Store<AudioKey>
    requires k <= |groups|
  {
    if k == 0 then cfg
    else
      var g := groups[k - 1];
      SavedGroups(cfg, dev, ch, groups, k - 1)
        [AudioKey(dev, Channel(ch, Group(k, GroupName))) := StringValue(g.name)]
        [AudioKey(dev, Channel(ch, Group(k, Left))) := VolumeValue(g.volumes.left)]
        [AudioKey(dev, Channel(ch, Group(k, Right))) := VolumeValue(g.volumes.right)]
  }

  /** The store after writing the group count and the groups of channel number `ch`. */
  function SavedChannel(cfg: Store<AudioKey>, dev: nat, ch: nat, groups: seq<GroupOutput>): Store<AudioKey> {
    SavedGroups(cfg[AudioKey(dev, Channel(ch, GroupCount)) := IntValue(|groups|)], dev, ch, groups, |groups|)
  }

  /** The store after writing the first `j` channels, numbered from 1. */
  function SavedChannels(cfg: Store<AudioKey>, dev: nat, outputs: seq<seq<GroupOutput>>, j: nat): Store<AudioKey>
    requires j <= |outputs|
  {
    if j == 0 then cfg else SavedChannel(SavedChannels(cfg, dev, outputs, j - 1), dev, j, outputs[j - 1])
  }

  /** The store after saving a device as device number `dev`. */
  function SavedDevice(cfg: Store<AudioKey>, dev: nat, name: string, latency: nat,
                       outputs: seq<seq<GroupOutput>>): Store<AudioKey>
  {
    var header := cfg[AudioKey(dev, Name) := StringValue(name)]
                     [AudioKey(dev, ChannelCount) := IntValue(|outputs|)]
                     [AudioKey(dev, Latency) := IntValue(latency)];
    SavedChannels(header, dev, outputs, |outputs|)
  }

  // ---------------------------------------------------------------------------
  // Load
  // ---------------------------------------------------------------------------

  /** The group count Load reads for channel number `ch`. */
  function GroupCountRead(cfg: Store<AudioKey>, dev: nat, ch: nat): (r: nat)
    ensures r <= MAX_GROUPS
  {
    ReadInteger(cfg, AudioKey(dev, Channel(ch, GroupCount)), 0, MAX_GROUPS, 0)
  }

  /** The group Load reads as group number `k` of channel number `ch`. */
  function GroupRead(cfg: Store<AudioKey>, dev: nat, ch: nat, k: nat): GroupOutput {
    GroupOutput(ReadString(cfg, AudioKey(dev, Channel(ch, Group(k, GroupName)))),
                StereoVolume(ReadVolume(cfg, AudioKey(dev, Channel(ch, Group(k, Left))), UNREAD_VOLUME),
                             ReadVolume(cfg, AudioKey(dev, Channel(ch, Group(k, Right))), UNREAD_VOLUME)))
  }

  /** The first `k` groups Load reads for channel number `ch`, numbered from 1. */
  function GroupsRead(cfg: Store<AudioKey>, dev: nat, ch: nat, k: nat): seq<GroupOutput> {
    if k == 0 then [] else GroupsRead(cfg, dev, ch, k - 1) + [GroupRead(cfg, dev, ch, k)]
  }

  /** The channel lists resized to `n`: kept lists are unchanged, new ones are empty. */
  function Resized(outputs: seq<seq<GroupOutput>>, n: nat): seq<seq<GroupOutput>>
  {
    seq(n, j requires 0 <= j < n => if j < |outputs| then outputs[j] else [])
  }

  /**
   * The channel lists after Load of `n` channels: the old lists resized to
   * `n`, each followed by the groups read for its channel.
   */
  function LoadedOutputs(cfg: Store<AudioKey>, dev: nat, outputs: seq<seq<GroupOutput>>, n: nat): seq<seq<GroupOutput>>
  {
    seq(n, j requires 0 <= j < n => Resized(outputs, n)[j] + GroupsRead(cfg, dev, j + 1, GroupCountRead(cfg, dev, j + 1)))
  }

  /**
   * The configuration of one audio device. `channels` is an 8-bit count in
   * the program; there is one group list per channel.
   */
  class Config {
    var name: string
    var desiredLatency: nat
    var channels: nat
    var channelOutputs: seq<seq<GroupOutput>>

    ghost predicate Valid()
      reads this
    {
      channels < 256 && |channelOutputs| == channels
    }

    /** A device with the given name, latency and number of channels, each with no groups. */
    constructor (name: string, desiredLatency: nat, channels: nat)
      requires channels < 256
      ensures Valid()
      ensures this.name == name && this.desiredLatency == desiredLatency && this.channels == channels
      ensures forall j :: 0 <= j < channels ==> channelOutputs[j] == []
    {
      this.name := name;
      this.desiredLatency := desiredLatency;
      this.channels := channels;
      channelOutputs := seq(channels, j => []);
    }

    /** The default device: no name, the default latency, no channels. */
    constructor Default()
      ensures Valid()
      ensures name == "" && desiredLatency == DEFAULT_LATENCY && channels == 0 && channelOutputs == []
    {
      name := "";
      desiredLatency := DEFAULT_LATENCY;
      channels := 0;
      channelOutputs := [];
    }

    /**
     * A stereo device for the given audio groups: channel 0 routes every
     * group, in order, as a left-side entry and channel 1 as a right-side
     * entry, both at the default volume. `sided` stands for the volumes the
     * one-sided GroupOutput constructor derives from its side flag and
     * volume; that constructor is not part of this model.
     */
    constructor FromAudioGroups(audioGroups: seq<string>, sided: (bool, Volume) -> StereoVolume)
      ensures Valid()
      ensures name == "" && desiredLatency == DEFAULT_LATENCY && channels == 2
      ensures |channelOutputs[0]| == |audioGroups| && |channelOutputs[1]| == |audioGroups|
      ensures forall k :: 0 <= k < |audioGroups| ==>
                channelOutputs[0][k] == GroupOutput(audioGroups[k], sided(true, DEFAULT_VOLUME))
                && channelOutputs[1][k] == GroupOutput(audioGroups[k], sided(false, DEFAULT_VOLUME))
    {
      name := "";
      desiredLatency := DEFAULT_LATENCY;
      channels := 2;
      var left: seq<GroupOutput> := [];
      var right: seq<GroupOutput> := [];
      var k := 0;
      while k < |audioGroups|
        invariant k <= |audioGroups| && |left| == k && |right| == k
        invariant forall i :: 0 <= i < k ==>
                    left[i] == GroupOutput(audioGroups[i], sided(true, DEFAULT_VOLUME))
                    && right[i] == GroupOutput(audioGroups[i], sided(false, DEFAULT_VOLUME))
      {
        left := left + [GroupOutput(audioGroups[k], sided(true, DEFAULT_VOLUME))];
        right := right + [GroupOutput(audioGroups[k], sided(false, DEFAULT_VOLUME))];
        k := k + 1;
      }
      channelOutputs := [left, right];
    }

    /**
     * SetOutputVolume: route `groupName` to channel `channel` with the
     * volume `vol` on one side, or, when the channel already routes it,
     * change the volume of its first entry. Nothing else changes.
     */
    method SetOutputVolume(channel: nat, groupName: string, isLeft: bool, vol: Volume,
                           volumeFor: (bool, bool, Volume) -> Volume,
                           setVolume: (StereoVolume, bool, Volume) -> StereoVolume)
      requires Valid() && channel < channels
      modifies this
      ensures Valid()
      ensures name == old(name) && desiredLatency == old(desiredLatency) && channels == old(channels)
      ensures channelOutputs == old(channelOutputs)[channel :=
                UpdatedGroups(old(channelOutputs[channel]), groupName, isLeft, vol, volumeFor, setVolume)]
    {
      var groups := channelOutputs[channel];
      var i := FindGroup(groups, groupName);
      if i == |groups| {
        var added := GroupOutput(groupName, StereoVolume(volumeFor(true, isLeft, vol), volumeFor(false, isLeft, vol)));
        channelOutputs := channelOutputs[channel := groups + [added]];
      } else {
        channelOutputs := channelOutputs[channel := groups[i := GroupOutput(groups[i].name, setVolume(groups[i].volumes, isLeft, vol))]];
      }
    }

    /** Save: write the device as device number `device`, channels and groups numbered from 1. */
    method Save(cfg: Store<AudioKey>, device: nat) returns (out: Store<AudioKey>)
      requires Valid()
      ensures out == SavedDevice(cfg, device, name, desiredLatency, channelOutputs)
    {
      out := cfg[AudioKey(device, Name) := StringValue(name)];
      out := out[AudioKey(device, ChannelCount) := IntValue(channels)];
      out := out[AudioKey(device, Latency) := IntValue(desiredLatency)];
      ghost var header := out;
      var j := 0;
      while j < channels
        invariant j <= channels
        invariant out == SavedChannels(header, device, channelOutputs, j)
      {
        var groups := channelOutputs[j];
        out := out[AudioKey(device, Channel(j + 1, GroupCount)) := IntValue(|groups|)];
        ghost var counted := out;
        var k := 0;
        while k < |groups|
          invariant k <= |groups|
          invariant out == SavedGroups(counted, device, j + 1, groups, k)
        {
          var group := groups[k];
          out := out[AudioKey(device, Channel(j + 1, Group(k + 1, GroupName))) := StringValue(group.name)];
          out := out[AudioKey(device, Channel(j + 1, Group(k + 1, Left))) := VolumeValue(group.volumes.left)];
          out := out[AudioKey(device, Channel(j + 1, Group(k + 1, Right))) := VolumeValue(group.volumes.right)];
          k := k + 1;
        }
        j := j + 1;
      }
    }

    /**
     * Load: read device number `device`. The latency, the channel count and
     * each group count are brought into their bounds; the channel lists are
     * resized to the channel count and the groups read are appended to them.
     */
    method Load(cfg: Store<AudioKey>, device: nat)
      modifies this
      ensures Valid()
      ensures name == ReadString(cfg, AudioKey(device, Name))
      ensures desiredLatency == ReadInteger(cfg, AudioKey(device, Latency), 0, MAX_LATENCY, DEFAULT_LATENCY)
      ensures channels == ReadInteger(cfg, AudioKey(device, ChannelCount), 0, MAX_CHANNELS, 0)
      ensures channelOutputs == LoadedOutputs(cfg, device, old(channelOutputs), channels)
    {
      name := ReadString(cfg, AudioKey(device, Name));
      desiredLatency := ReadInteger(cfg, AudioKey(device, Latency), 0, MAX_LATENCY, DEFAULT_LATENCY);
      var count := ReadInteger(cfg, AudioKey(device, ChannelCount), 0, MAX_CHANNELS, 0);
      channels := count;
      channelOutputs := Resized(channelOutputs, count);
      ghost var loadedName, loadedLatency, resized := name, desiredLatency, channelOutputs;
      var j := 0;
      while j < count
        invariant j <= count && |channelOutputs| == count
        invariant name == loadedName && desiredLatency == loadedLatency && channels == count
        invariant forall i :: 0 <= i < j ==>
                    channelOutputs[i] == resized[i] + GroupsRead(cfg, device, i + 1, GroupCountRead(cfg, device, i + 1))
        invariant forall i :: j <= i < count ==> channelOutputs[i] == resized[i]
      {
        var groupCount := ReadInteger(cfg, AudioKey(device, Channel(j + 1, GroupCount)), 0, MAX_GROUPS, 0);
        AppendGroups(cfg, device, j, groupCount);
        j := j + 1;
      }
    }

    /** The inner loop of Load: append the first `count` groups read for channel number `j + 1` to list `j`. */
    method AppendGroups(cfg: Store<AudioKey>, device: nat, j: nat, count: nat)
      requires j < |channelOutputs|
      modifies this`channelOutputs
      ensures channelOutputs == old(channelOutputs)[j := old(channelOutputs[j]) + GroupsRead(cfg, device, j + 1, count)]
    {
      var k := 0;
      assert old(channelOutputs[j]) + GroupsRead(cfg, device, j + 1, 0) == old(channelOutputs[j]);
      while k < count
        invariant k <= count
        invariant channelOutputs == old(channelOutputs)[j := old(channelOutputs[j]) + GroupsRead(cfg, device, j + 1, k)]
      {
        var group := GroupRead(cfg, device, j + 1, k + 1);
        assert old(channelOutputs[j]) + GroupsRead(cfg, device, j + 1, k + 1)
            == old(channelOutputs[j]) + GroupsRead(cfg, device, j + 1, k) + [group];
        channelOutputs := channelOutputs[j := channelOutputs[j] + [group]];
        k := k + 1;
      }
    }
  }
}
