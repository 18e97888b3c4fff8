# GrandOrgue divisionals, audio device routing and shortcut patterns in Dafny

This project models three parts of GrandOrgue, a virtual pipe organ.

**Divisional combination memory** (`src/grandorgue/GOrgueDivisional.cpp`).
A divisional is a combination button of one manual. Its memory is one state per element of its template: -1 means the element is not part of the combination, 0 means off and 1 means on.
- `LoadCombination` decodes the memory from the user's settings. Each stored value `s` turns the element numbered `|s|` on when `s > 0` and off otherwise.
- `Save` writes the memory back as separately numbered stop, coupler and tremulant entries.
- `Push` recalls a divisional. Unless the setter is active, it then propagates the push through the engaged divisional couplers.

The modules are:
- `Divisional`: the memory, `LoadCombination`, `Save` and `Load`.
- `DivisionalProofs`: decoding, encoding, layout and round-trip lemmas.
- `DivisionalPush`: an `Organ` that records the divisional buttons' display and the sequence of recalls, with `PushLocal`, `Push` and the coupler selection rule.

**Audio device routing table** (`src/grandorgue/config/GOAudioDeviceConfig.cpp`).
A device has a name, a desired latency and, for each output channel, a list of routed audio groups with a left and a right volume.
- Module `AudioDeviceConfig` holds the class `Config`: its three constructors, `SetOutputVolume` (find or append), `Save` and `Load`.
- Module `AudioDeviceConfigProofs` proves what those do and that `Load` reads back what `Save` wrote.

**MIDI shortcut pattern equality** (`src/grandorgue/midi/GOMidiShortcutPattern.cpp`).
Module `MidiShortcutPattern` models the three-field comparison and its laws.

**The settings store.**
`ConfigStore` models the settings reader and writer as a map from structured keys to values. The key text (`Stop%03d`, `Device%03d`, `Channel%03d`, `Group%03d`, ...) becomes a datatype with the number as a field.
- A missing or ill-typed entry reads as the default.
- A present integer is clamped into the requested range.
- Writers are methods that return the updated store.

**Operations whose bodies are not part of this model** are parameters or function-valued fields, and properties are stated relative to them:
- the template lookup `findEntry`;
- `Clear` and `UpdateState`;
- `GOrgueCombination::PushLocal`, which reports whether the recall was used;
- `volumeFor`;
- `GroupOutput::SetVolume`;
- the one-sided `GroupOutput` constructor.

Volumes are an opaque type.

## Model

| member | source | states |
|---|---|---|
| Divisional.Divisional.constructor | src/grandorgue/GOrgueDivisional.cpp:31-37 | divisional number 0, manual number 1, one memory state per template element |
| Divisional.Divisional.Load | src/grandorgue/GOrgueDivisional.cpp:39-49 | records the settings group, the manual number and the divisional number; the memory is untouched |
| Divisional.Divisional.LoadCombination | src/grandorgue/GOrgueDivisional.cpp:51-111 | the memory becomes the cleared state with the stored stops, then couplers, then tremulants of the user section decoded in entry order |
| Divisional.Divisional.LoadEntries | src/grandorgue/GOrgueDivisional.cpp:62-87 | one decoding loop: the memory becomes the old memory with every stored value of one kind decoded, first to last |
| Divisional.Divisional.Save | src/grandorgue/GOrgueDivisional.cpp:113-158 | the memory becomes what UpdateState leaves, and the store becomes the store with every entry and the three counts written, as laid out by SavedLayout |
| DivisionalProofs.DecodeLastTarget | src/grandorgue/GOrgueDivisional.cpp:62-87 | for every kind: the last stored value whose absolute value the template maps to an element decides it, 1 when positive and 0 otherwise |
| DivisionalProofs.DecodeUntargeted | src/grandorgue/GOrgueDivisional.cpp:66-68 | an element that no stored value maps to keeps its state |
| DivisionalProofs.DecodeUnknownValues | src/grandorgue/GOrgueDivisional.cpp:75-77 | stored values the template has no element for (findEntry negative) leave the memory unchanged |
| DivisionalProofs.LoadedReadsUserSectionOnly | src/grandorgue/GOrgueDivisional.cpp:89-110 | the decoded memory depends only on the user-section entries of the divisional's group; the organ-definition reads change nothing |
| DivisionalProofs.SavedValuesPrefix | src/grandorgue/GOrgueDivisional.cpp:125-153 | entries are produced in element order: the entries of a shorter prefix of elements are a prefix of those of a longer one |
| DivisionalProofs.SavedValuesFromSlots | src/grandorgue/GOrgueDivisional.cpp:125-153 | each entry of one kind is +index of an element of that kind in state 1, or -index of one in state 0 or any other state but -1 |
| DivisionalProofs.SavedValuesCount | src/grandorgue/GOrgueDivisional.cpp:125-153 | the entries of one kind are as many as its elements whose state is not -1 |
| DivisionalProofs.SavedPrefixEntry | src/grandorgue/GOrgueDivisional.cpp:125-153 | after any prefix of elements, entry n of each kind holds that kind's n-th value |
| DivisionalProofs.SavedPrefixUntouched | src/grandorgue/GOrgueDivisional.cpp:125-153 | after any prefix of elements, every key that is not one of their numbered entries is as before |
| DivisionalProofs.SavedLayout | src/grandorgue/GOrgueDivisional.cpp:121-157 | stops, couplers and tremulants are numbered separately from 1; each written count equals the number of entries of its kind; no divisional-coupler key and no key of another group or section changes |
| DivisionalProofs.DecodeSavedValues | src/grandorgue/GOrgueDivisional.cpp:62-87 | decoding the values Save writes for a kind sets each written element back to its saved 0 or 1 and leaves the rest alone, when findEntry finds each element by its own kind and positive number |
| DivisionalProofs.ReadBackSaved | src/grandorgue/GOrgueDivisional.cpp:55-87 | reading the saved store gives back exactly the values written for each kind, when the counts and numbers lie within the reader's bounds |
| DivisionalProofs.SaveLoadRoundTrip | src/grandorgue/GOrgueDivisional.cpp:51-157 | LoadCombination of what Save wrote restores every stop, coupler and tremulant element whose state was 0 or 1; elements in state -1 and divisional couplers keep the cleared state |
| DivisionalPush.FirstIndex | src/grandorgue/GOrgueDivisional.cpp:187-191 | the position of the first occurrence of a manual in a coupler's list, or the list's length: no earlier position holds it |
| DivisionalPush.FindManual | src/grandorgue/GOrgueDivisional.cpp:187-191 | the scan for this manual in a coupler's list stops at its first occurrence |
| DivisionalPush.Organ.ShownUpToSpec | src/grandorgue/GOrgueDivisional.cpp:165-169 | after displaying the first k divisionals of the manual, each is lit exactly when it is the pushed one and the push was used; no other button changes |
| DivisionalPush.Organ.ShownSpec | src/grandorgue/GOrgueDivisional.cpp:160-171 | after PushLocal every other divisional of the manual is displayed off and the pushed one is on exactly when its recall was used; buttons of other manuals are unchanged |
| DivisionalPush.Organ.ShownPrefixLastWins | src/grandorgue/GOrgueDivisional.cpp:173-206 | over a sequence of local pushes, a manual's buttons show the last push made on that manual |
| DivisionalPush.Organ.ShownPrefixOtherManuals | src/grandorgue/GOrgueDivisional.cpp:173-206 | a sequence of local pushes leaves the buttons of manuals it never pushes on unchanged |
| DivisionalPush.Organ.PushLocal | src/grandorgue/GOrgueDivisional.cpp:160-171 | returns whether the recall was used, logs the recall and updates the display as ShownSpec states; the display stays what the logged recalls made of the initial one |
| DivisionalPush.Organ.ShownAllAppend | src/grandorgue/GOrgueDivisional.cpp:160-171 | the display after two sequences of local pushes is the second sequence's effect on the display the first one left |
| DivisionalPush.Organ.Push | src/grandorgue/GOrgueDivisional.cpp:173-207 | makes exactly the local pushes of Pushes, in order: only this divisional when the setter is active, otherwise this one followed by the same-numbered divisional of every manual the engaged couplers select, coupler by coupler; the display ends as those pushes leave it, and stays what the logged recalls made of the initial one |
| DivisionalPush.Organ.PushCouplers | src/grandorgue/GOrgueDivisional.cpp:181-206 | the loop over all divisional couplers makes the propagated pushes in coupler order |
| DivisionalPush.Organ.PushCoupler | src/grandorgue/GOrgueDivisional.cpp:183-205 | one coupler: a disengaged one contributes no push, an engaged one the pushes of CoupledManuals |
| DivisionalPush.Organ.PushCoupled | src/grandorgue/GOrgueDivisional.cpp:187-205 | an engaged coupler pushes the manuals listed after the first occurrence of this manual, then, when bidirectional, those before it; nothing when this manual is not listed |
| DivisionalPush.Organ.PushCoupledBefore | src/grandorgue/GOrgueDivisional.cpp:194-203 | for a bidirectional coupler, after the manuals listed after this one, pushes those listed before its first occurrence, completing CoupledManuals |
| DivisionalPush.Organ.PushAfter | src/grandorgue/GOrgueDivisional.cpp:192-193 | pushes the manuals listed after position i, in order |
| DivisionalPush.Organ.PushBefore | src/grandorgue/GOrgueDivisional.cpp:195-203 | pushes the manuals listed before the first occurrence of this manual, stopping there |
| DivisionalPush.ListedSlices | src/grandorgue/GOrgueDivisional.cpp:187-203 | the manuals pushed after and before are the slices of the list after and before the first occurrence |
| DivisionalPush.CoupledMembership | src/grandorgue/GOrgueDivisional.cpp:184-205 | a manual receives a coupler's push if and only if the coupler is engaged, lists this manual, and lists the manual after the first occurrence of this one, or before it when bidirectional |
| DivisionalPush.BidirectionalCoupledAllOthers | src/grandorgue/GOrgueDivisional.cpp:192-203 | an engaged bidirectional coupler that lists this manual pushes every other listed position exactly once |
| DivisionalPush.PropagatedMembership | src/grandorgue/GOrgueDivisional.cpp:181-206 | a manual receives a propagated push if and only if some divisional coupler selects it |
| DivisionalPush.NoChaining | src/grandorgue/GOrgueDivisional.cpp:192-193 | propagated pushes are local: with couplers 1→2 and 2→3 engaged, a push on manual 1 reaches manual 2 only |
| AudioDeviceConfig.Config.constructor | src/grandorgue/config/GOAudioDeviceConfig.cpp:18-22 | a device with the given name and latency and `channels` empty channel lists |
| AudioDeviceConfig.Config.Default | src/grandorgue/config/GOAudioDeviceConfig.cpp:24-25 | no name, latency 50, no channels |
| AudioDeviceConfig.Config.FromAudioGroups | src/grandorgue/config/GOAudioDeviceConfig.cpp:27-36 | two channels, each with one entry per audio group in input order; channel 0 entries are built left-sided and channel 1 entries right-sided, all at the default volume |
| AudioDeviceConfig.FirstNamed | src/grandorgue/config/GOAudioDeviceConfig.cpp:113-116 | the position of the first group with the name, or the list's length; no earlier group has the name |
| AudioDeviceConfig.FindGroup | src/grandorgue/config/GOAudioDeviceConfig.cpp:111-116 | the search of SetOutputVolume returns the first group with the name, or the list's length |
| AudioDeviceConfig.Config.SetOutputVolume | src/grandorgue/config/GOAudioDeviceConfig.cpp:109-123 | requires a channel below the channel count; only that channel's list changes, as UpdatedGroups gives; name, latency and channel count are unchanged |
| AudioDeviceConfigProofs.SetOutputVolumeAppends | src/grandorgue/config/GOAudioDeviceConfig.cpp:113-120 | the list grows if and only if the name was absent; it then keeps every entry and gains exactly one at the end, with that name and the volumes volumeFor gives |
| AudioDeviceConfigProofs.SetOutputVolumeUpdatesFirst | src/grandorgue/config/GOAudioDeviceConfig.cpp:113-122 | with the name present the length is unchanged, only the first entry with the name changes, and that entry gets the volumes SetVolume gives |
| AudioDeviceConfigProofs.SetOutputVolumeRoutes | src/grandorgue/config/GOAudioDeviceConfig.cpp:109-123 | afterwards the channel routes exactly the names it routed before plus the given one |
| AudioDeviceConfigProofs.SetOutputVolumeKeepsNamesDistinct | src/grandorgue/config/GOAudioDeviceConfig.cpp:109-123 | a channel whose names are distinct keeps them distinct |
| AudioDeviceConfig.Config.Save | src/grandorgue/config/GOAudioDeviceConfig.cpp:86-107 | the store becomes the store with this device written as SavedDeviceAt lays out |
| AudioDeviceConfigProofs.SavedGroupsAt | src/grandorgue/config/GOAudioDeviceConfig.cpp:98-105 | writing a channel's groups puts each group's name, left and right under its own number from 1 and touches no other key |
| AudioDeviceConfigProofs.SavedChannelAt | src/grandorgue/config/GOAudioDeviceConfig.cpp:93-105 | writing a channel puts its group count and its groups under its number and touches no other key |
| AudioDeviceConfigProofs.SavedChannelsAt | src/grandorgue/config/GOAudioDeviceConfig.cpp:92-106 | writing the channels numbers them from 1 and puts each one's group count and groups under its number; no other key changes |
| AudioDeviceConfigProofs.SavedDeviceAt | src/grandorgue/config/GOAudioDeviceConfig.cpp:86-107 | Save's layout: name, channel count and latency under the device number; each channel's group count equals its list size; each group's entries are numbered from 1 in list order; every other key, including other devices', keeps its value |
| AudioDeviceConfig.Config.Load | src/grandorgue/config/GOAudioDeviceConfig.cpp:48-84 | reads the name; clamps the latency to 0..999 (default 50) and the channel count to 0..200; resizes the lists to the channel count; appends to each list the groups read for it, with the group count clamped to 0..200 |
| AudioDeviceConfig.Config.AppendGroups | src/grandorgue/config/GOAudioDeviceConfig.cpp:69-82 | appends the groups read for one channel to its list, in group order, and changes no other list |
| AudioDeviceConfigProofs.GroupsReadSaved | src/grandorgue/config/GOAudioDeviceConfig.cpp:69-82 | reading the first k groups of a saved channel gives its first k groups, in order |
| AudioDeviceConfigProofs.ChannelReadSaved | src/grandorgue/config/GOAudioDeviceConfig.cpp:66-67 | a saved channel with at most 200 groups reads back exactly |
| AudioDeviceConfigProofs.SaveLoadRoundTrip | src/grandorgue/config/GOAudioDeviceConfig.cpp:48-107 | Load into a device with no channel lists, of what Save wrote, reproduces the name, the latency, the channel count and every channel's groups in order, for latency up to 999, at most 200 channels and at most 200 groups per channel |
| AudioDeviceConfigProofs.LoadTruncatesLongChannel | src/grandorgue/config/GOAudioDeviceConfig.cpp:66-67 | a saved channel with more than 200 groups reads back as its first 200 |
| AudioDeviceConfigProofs.LoadTwiceDuplicates | src/grandorgue/config/GOAudioDeviceConfig.cpp:62-82 | Load appends without clearing: loading the same device twice routes every read group twice |
| MidiShortcutPattern.Equals | src/grandorgue/midi/GOMidiShortcutPattern.cpp:10-13 | two patterns compare equal if and only if they are the same value, that is, all three fields agree |
| MidiShortcutPattern.EqualsReflexive | src/grandorgue/midi/GOMidiShortcutPattern.cpp:12-13 | every pattern equals itself |
| MidiShortcutPattern.EqualsSymmetric | src/grandorgue/midi/GOMidiShortcutPattern.cpp:12-13 | the comparison does not depend on argument order |
| MidiShortcutPattern.EqualsTransitive | src/grandorgue/midi/GOMidiShortcutPattern.cpp:12-13 | equal to equal is equal |
| MidiShortcutPattern.UnequalIffSomeFieldDiffers | src/grandorgue/midi/GOMidiShortcutPattern.cpp:12-13 | patterns are unequal if and only if the kind, the shortcut key or the minus key differs |

## Left out

- The settings reader and writer are modelled as a map, including `ReadInteger`, `ReadString`, `ReadFloat`, `Write*`, `GOrgueConfigReader` and `GOConfigWriter`. A missing or ill-typed entry reads as the default. The reader's real handling of a missing required entry (an error for organ-definition settings) and its text parsing are not part of this model.
- The key text (`Printf`/`Format` with `%03d`) is abstracted into structured keys. Distinct numbers give distinct keys.
- `AudioDeviceConfig.Config.Load`: the `ReadFloat` clamping of volumes to `MUTE_VOLUME`..`MAX_VOLUME` and the float conversions are not modelled. Volumes are opaque and read back as written.
- Volume arithmetic (`volumeFor`, `GroupOutput::SetVolume`, the one-sided `GroupOutput` constructor): their bodies are not part of this model; they are parameters, and SetOutputVolume's contract is stated relative to them.
- `AudioDeviceConfig.Config.FromAudioGroups`: the one-sided `GroupOutput` constructor is assumed to keep the name it is given. How it derives the two volumes is the parameter `sided`.
- `findEntry`, `Clear`, `UpdateState`, `Display` and `GOrgueCombination::PushLocal` are not part of this model:
  - findEntry is the template's `find`.
  - Clear and UpdateState are given as the states they leave.
  - Display is the `lit` map.
  - The combination recall is the `used` predicate, plus a log of recalls.
- `Divisional.Divisional.Load`: the `Protected` flag, the MIDI index and `GOrguePushbutton::Load` (lines 44-48) are configuration plumbing and are not modelled.
- `Divisional.Divisional.Save`: `GOrguePushbutton::Save` (line 118) is not modelled.
- `Divisional.Divisional.constructor`: the initial contents of the memory are not modelled, because the combination base class sets them.
- Integer widths are not modelled. Counts and indices are unbounded integers. The audio channel count is required to be below 256 for the `uint8_t` field; Load reads at most 200, so its cast never truncates.
- The organ's manual and divisional lookups (`GetManual`, `GetDivisional`, `GetDivisionalCoupler`) are maps and sequences in `Organ`. The couplers, their engagement and the setter state are constant fields, because a push only reads them. `Push` requires every divisional it pushes to exist; the program would dereference a missing one.
- The header declaring the shortcut pattern's fields is not part of this model. The kind is an opaque type with equality, and the two keys are natural numbers.
