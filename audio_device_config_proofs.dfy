/**
 * Properties of the audio device routing table: what SetOutputVolume does to
 * a channel's list, where Save puts each value, and that Load reads back
 * what Save wrote.
 */
module AudioDeviceConfigProofs {
  import opened ConfigStore
  import opened AudioDeviceConfig

  // ---------------------------------------------------------------------------
  // SetOutputVolume
  // ---------------------------------------------------------------------------

  /** Whether some group of the list is named `name`. */
  predicate Routes(groups: seq<GroupOutput>, name: string) {
    exists j :: 0 <= j < |groups| && groups[j].name == name
  }

  /**
   * With a name the channel does not route, SetOutputVolume appends exactly
   * one entry, carrying the name, and keeps every existing entry; the list
   * grows exactly when the name was absent.
   */
  lemma SetOutputVolumeAppends(groups: seq<GroupOutput>, name: string, isLeft: bool, vol: Volume,
                               volumeFor: (bool, bool, Volume) -> Volume,
                               setVolume: (StereoVolume, bool, Volume) -> StereoVolume)
    ensures var r := UpdatedGroups(groups, name, isLeft, vol, volumeFor, setVolume);
            (|r| == |groups| + 1 <==> !Routes(groups, name))
            && (!Routes(groups, name) ==>
                  r[..|groups|] == groups
                  && r[|groups|] == GroupOutput(name, StereoVolume(volumeFor(true, isLeft, vol), volumeFor(false, isLeft, vol))))
  {
    var i := FirstNamed(groups, name);
    if Routes(groups, name) {
      var j :| 0 <= j < |groups| && groups[j].name == name;
      assert i <= j;
    }
  }

  /**
   * With a name the channel routes, SetOutputVolume keeps the length, sets
   * the volumes of the first entry with that name through `setVolume`, and
   * leaves every other entry, including later ones with the same name, as it was.
   */
  lemma SetOutputVolumeUpdatesFirst(groups: seq<GroupOutput>, name: string, isLeft: bool, vol: Volume,
                                    volumeFor: (bool, bool, Volume) -> Volume,
                                    setVolume: (StereoVolume, bool, Volume) -> StereoVolume)
    requires Routes(groups, name)
    ensures var r := UpdatedGroups(groups, name, isLeft, vol, volumeFor, setVolume);
            var i := FirstNamed(groups, name);
            |r| == |groups| && i < |groups|
            && (forall j :: 0 <= j < i ==> groups[j].name != name)
            && r[i] == GroupOutput(name, setVolume(groups[i].volumes, isLeft, vol))
            && (forall j :: 0 <= j < |groups| && j != i ==> r[j] == groups[j])
  {
    var j :| 0 <= j < |groups| && groups[j].name == name;
    assert FirstNamed(groups, name) <= j;
  }

  /** After SetOutputVolume a channel routes exactly the names it routed before and the given one. */
  lemma SetOutputVolumeRoutes(groups: seq<GroupOutput>, name: string, isLeft: bool, vol: Volume,
                              volumeFor: (bool, bool, Volume) -> Volume,
                              setVolume: (StereoVolume, bool, Volume) -> StereoVolume, other: string)
    ensures Routes(UpdatedGroups(groups, name, isLeft, vol, volumeFor, setVolume), other)
            <==> Routes(groups, other) || other == name
  {
    var r := UpdatedGroups(groups, name, isLeft, vol, volumeFor, setVolume);
    var i := FirstNamed(groups, name);
    if i == |groups| {
      assert r[|groups|].name == name;
      if Routes(groups, other) {
        var j :| 0 <= j < |groups| && groups[j].name == other;
        assert r[j] == groups[j];
      }
      if Routes(r, other) {
        var j :| 0 <= j < |r| && r[j].name == other;
        if j < |groups| { assert r[j] == groups[j]; }
      }
    } else {
      assert r[i].name == name;
      if Routes(groups, other) {
        var j :| 0 <= j < |groups| && groups[j].name == other;
        assert r[j].name == groups[j].name;
      }
      if Routes(r, other) {
        var j :| 0 <= j < |r| && r[j].name == other;
        assert r[j].name == groups[j].name;
      }
    }
  }

  /** SetOutputVolume keeps a channel free of duplicate names. */
  lemma SetOutputVolumeKeepsNamesDistinct(groups: seq<GroupOutput>, name: string, isLeft: bool, vol: Volume,
                                          volumeFor: (bool, bool, Volume) -> Volume,
                                          setVolume: (StereoVolume, bool, Volume) -> StereoVolume)
    requires DistinctNames(groups)
    ensures DistinctNames(UpdatedGroups(groups, name, isLeft, vol, volumeFor, setVolume))
  {
    var r := UpdatedGroups(groups, name, isLeft, vol, volumeFor, setVolume);
    var i := FirstNamed(groups, name);
    if i == |groups| {
      forall a, b | 0 <= a < b < |r|
        ensures r[a].name != r[b].name
      {
        if b == |groups| {
          assert r[a] == groups[a];
        }
      }
    } else {
      forall a, b | 0 <= a < b < |r|
        ensures r[a].name != r[b].name
      {
        assert r[a].name == groups[a].name && r[b].name == groups[b].name;
      }
    }
  }

  // ---------------------------------------------------------------------------
  // Save layout
  // ---------------------------------------------------------------------------

  /** Whether two stores agree at `key`: both lack it, or both hold the same value. */
  predicate SameAt(a: Store<AudioKey>, b: Store<AudioKey>, key: AudioKey) {
    (key in a <==> key in b) && (key in a ==> a[key] == b[key])
  }

  /** The value Save writes for one field of a group. */
  function FieldValue(g: GroupOutput, f: GroupField): Value {
    match f
    case GroupName => StringValue(g.name)
    case Left => VolumeValue(g.volumes.left)
    case Right => VolumeValue(g.volumes.right)
  }

  /** Whether `key` is a field of group number 1..`k` of channel number `ch` of device `dev`. */
  predicate IsGroupKey(key: AudioKey, dev: nat, ch: nat, k: nat) {
    key.device == dev && key.field.Channel? && key.field.channel == ch
    && key.field.field.Group? && 1 <= key.field.field.group <= k
  }

  /** Whether Save of the channel lists `outputs` writes `key`: a group count or a field of a listed group. */
  predicate IsChannelKey(key: AudioKey, dev: nat, outputs: seq<seq<GroupOutput>>) {
    key.device == dev && key.field.Channel? && 1 <= key.field.channel <= |outputs|
    && (key.field.field.GroupCount?
        || (key.field.field.group >= 1 && key.field.field.group <= |outputs[key.field.channel - 1]|))
  }

  /** The value Save writes at a key of `IsChannelKey`. */
  function ChannelValue(key: AudioKey, outputs: seq<seq<GroupOutput>>): Value
    requires key.field.Channel? && 1 <= key.field.channel <= |outputs|
    requires key.field.field.Group? ==> 1 <= key.field.field.group <= |outputs[key.field.channel - 1]|
  {
    var groups := outputs[key.field.channel - 1];
    match key.field.field
    case GroupCount => IntValue(|groups|)
    case Group(g, f) => FieldValue(groups[g - 1], f)
  }

  /** Writing the first `k` groups of a channel puts each field under its own number and touches nothing else. */
  lemma {:induction false} SavedGroupsAt(cfg: Store<AudioKey>, dev: nat, ch: nat, groups: seq<GroupOutput>, k: nat, key: AudioKey)
    requires k <= |groups|
    ensures var s := SavedGroups(cfg, dev, ch, groups, k);
            if IsGroupKey(key, dev, ch, k)
            then key in s && s[key] == FieldValue(groups[key.field.field.group - 1], key.field.field.field)
            else SameAt(s, cfg, key)
    decreases k
  {
    if k > 0 {
      SavedGroupsAt(cfg, dev, ch, groups, k - 1, key);
      if IsGroupKey(key, dev, ch, k) && key.field.field.group == k {
        var g := groups[k - 1];
        var s := SavedGroups(cfg, dev, ch, groups, k);
        match key.field.field.field
        case GroupName => assert s[AudioKey(dev, Channel(ch, Group(k, GroupName)))] == StringValue(g.name);
        case Left => assert s[AudioKey(dev, Channel(ch, Group(k, Left)))] == VolumeValue(g.volumes.left);
        case Right => assert s[AudioKey(dev, Channel(ch, Group(k, Right)))] == VolumeValue(g.volumes.right);
      }
    }
  }

  /** Writing one channel puts its group count and its groups under its number and touches nothing else. */
  lemma SavedChannelAt(cfg: Store<AudioKey>, dev: nat, ch: nat, groups: seq<GroupOutput>, key: AudioKey)
    ensures var s := SavedChannel(cfg, dev, ch, groups);
            if key == AudioKey(dev, Channel(ch, GroupCount)) then key in s && s[key] == IntValue(|groups|)
            else if IsGroupKey(key, dev, ch, |groups|)
            then key in s && s[key] == FieldValue(groups[key.field.field.group - 1], key.field.field.field)
            else SameAt(s, cfg, key)
  {
    SavedGroupsAt(cfg[AudioKey(dev, Channel(ch, GroupCount)) := IntValue(|groups|)], dev, ch, groups, |groups|, key);
  }

  /** Writing the first `j` channels puts every group count and group under its number and touches nothing else. */
  lemma {:induction false} SavedChannelsAt(cfg: Store<AudioKey>, dev: nat, outputs: seq<seq<GroupOutput>>, j: nat, key: AudioKey)
    requires j <= |outputs|
    ensures var s := SavedChannels(cfg, dev, outputs, j);
            if IsChannelKey(key, dev, outputs[..j])
            then key in s && s[key] == ChannelValue(key, outputs)
            else SameAt(s, cfg, key)
    decreases j
  {
    if j > 0 {
      SavedChannelsAt(cfg, dev, outputs, j - 1, key);
      SavedChannelAt(SavedChannels(cfg, dev, outputs, j - 1), dev, j, outputs[j - 1], key);
    }
  }

  /**
   * Save's layout: the name, channel count and latency under the device's
   * number, and for each channel, numbered from 1, its group count and each
   * group's name and volumes in list order, numbered from 1. Every other key,
   * including every key of another device, keeps its value.
   */
  lemma SavedDeviceAt(cfg: Store<AudioKey>, dev: nat, name: string, latency: nat,
                      outputs: seq<seq<GroupOutput>>, key: AudioKey)
    ensures var s := SavedDevice(cfg, dev, name, latency, outputs);
            if key == AudioKey(dev, Name) then key in s && s[key] == StringValue(name)
            else if key == AudioKey(dev, ChannelCount) then key in s && s[key] == IntValue(|outputs|)
            else if key == AudioKey(dev, Latency) then key in s && s[key] == IntValue(latency)
            else if IsChannelKey(key, dev, outputs) then key in s && s[key] == ChannelValue(key, outputs)
            else SameAt(s, cfg, key)
  {
    var header := cfg[AudioKey(dev, Name) := StringValue(name)]
                     [AudioKey(dev, ChannelCount) := IntValue(|outputs|)]
                     [AudioKey(dev, Latency) := IntValue(latency)];
    SavedChannelsAt(header, dev, outputs, |outputs|, key);
    assert outputs[..|outputs|] == outputs;
  }

  // ---------------------------------------------------------------------------
  // Load after Save
  // ---------------------------------------------------------------------------

  /** Reading the first `k` groups of a saved channel yields them in order. */
  lemma {:induction false} GroupsReadSaved(cfg: Store<AudioKey>, dev: nat, name: string, latency: nat,
                                           outputs: seq<seq<GroupOutput>>, ch: nat, k: nat)
    requires 1 <= ch <= |outputs| && k <= |outputs[ch - 1]|
    ensures GroupsRead(SavedDevice(cfg, dev, name, latency, outputs), dev, ch, k) == outputs[ch - 1][..k]
    decreases k
  {
    if k > 0 {
      var s := SavedDevice(cfg, dev, name, latency, outputs);
      var g := outputs[ch - 1][k - 1];
      GroupsReadSaved(cfg, dev, name, latency, outputs, ch, k - 1);
      SavedDeviceAt(cfg, dev, name, latency, outputs, AudioKey(dev, Channel(ch, Group(k, GroupName))));
      SavedDeviceAt(cfg, dev, name, latency, outputs, AudioKey(dev, Channel(ch, Group(k, Left))));
      SavedDeviceAt(cfg, dev, name, latency, outputs, AudioKey(dev, Channel(ch, Group(k, Right))));
      assert GroupRead(s, dev, ch, k) == g;
      assert outputs[ch - 1][..k] == outputs[ch - 1][..k - 1] + [g];
    }
  }

  /** Load reads back the channel saved as number `ch`, when it has at most `MAX_GROUPS` groups. */
  lemma ChannelReadSaved(cfg: Store<AudioKey>, dev: nat, name: string, latency: nat,
                         outputs: seq<seq<GroupOutput>>, ch: nat)
    requires 1 <= ch <= |outputs| && |outputs[ch - 1]| <= MAX_GROUPS
    ensures var s := SavedDevice(cfg, dev, name, latency, outputs);
            GroupsRead(s, dev, ch, GroupCountRead(s, dev, ch)) == outputs[ch - 1]
  {
    SavedDeviceAt(cfg, dev, name, latency, outputs, AudioKey(dev, Channel(ch, GroupCount)));
    GroupsReadSaved(cfg, dev, name, latency, outputs, ch, |outputs[ch - 1]|);
    assert outputs[ch - 1][..|outputs[ch - 1]|] == outputs[ch - 1];
  }

  /**
   * Round trip: Save followed by Load into a configuration with no channel
   * lists reproduces the name, the latency, the channel count and every
   * channel's groups in order, as long as the values lie within Load's bounds.
   */
  lemma SaveLoadRoundTrip(cfg: Store<AudioKey>, dev: nat, name: string, latency: nat,
                          outputs: seq<seq<GroupOutput>>)
    requires latency <= MAX_LATENCY && |outputs| <= MAX_CHANNELS
    requires forall j :: 0 <= j < |outputs| ==> |outputs[j]| <= MAX_GROUPS
    ensures var s := SavedDevice(cfg, dev, name, latency, outputs);
            ReadString(s, AudioKey(dev, Name)) == name
            && ReadInteger(s, AudioKey(dev, Latency), 0, MAX_LATENCY, DEFAULT_LATENCY) == latency
            && ReadInteger(s, AudioKey(dev, ChannelCount), 0, MAX_CHANNELS, 0) == |outputs|
            && LoadedOutputs(s, dev, [], |outputs|) == outputs
  {
    var s := SavedDevice(cfg, dev, name, latency, outputs);
    SavedDeviceAt(cfg, dev, name, latency, outputs, AudioKey(dev, Name));
    SavedDeviceAt(cfg, dev, name, latency, outputs, AudioKey(dev, Latency));
    SavedDeviceAt(cfg, dev, name, latency, outputs, AudioKey(dev, ChannelCount));
    forall j | 0 <= j < |outputs|
      ensures LoadedOutputs(s, dev, [], |outputs|)[j] == outputs[j]
    {
      ChannelReadSaved(cfg, dev, name, latency, outputs, j + 1);
    }
  }

  /** Load clamps: a channel saved with more than `MAX_GROUPS` groups reads back as its first `MAX_GROUPS`. */
  lemma LoadTruncatesLongChannel(cfg: Store<AudioKey>, dev: nat, name: string, latency: nat,
                                 outputs: seq<seq<GroupOutput>>, ch: nat)
    requires 1 <= ch <= |outputs| && |outputs[ch - 1]| > MAX_GROUPS
    ensures var s := SavedDevice(cfg, dev, name, latency, outputs);
            GroupsRead(s, dev, ch, GroupCountRead(s, dev, ch)) == outputs[ch - 1][..MAX_GROUPS]
  {
    SavedDeviceAt(cfg, dev, name, latency, outputs, AudioKey(dev, Channel(ch, GroupCount)));
    GroupsReadSaved(cfg, dev, name, latency, outputs, ch, MAX_GROUPS);
  }

  /**
   * Load does not clear the lists it keeps: loading the same device twice
   * into a configuration with no channel lists routes every group twice.
   */
  lemma LoadTwiceDuplicates(cfg: Store<AudioKey>, dev: nat, n: nat, j: nat)
    requires j < n
    ensures var once := GroupsRead(cfg, dev, j + 1, GroupCountRead(cfg, dev, j + 1));
            LoadedOutputs(cfg, dev, LoadedOutputs(cfg, dev, [], n), n)[j] == once + once
  {
    assert LoadedOutputs(cfg, dev, [], n)[j] == [] + GroupsRead(cfg, dev, j + 1, GroupCountRead(cfg, dev, j + 1));
  }
}
