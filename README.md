# Conference device list of the linphone desktop client, in Dafny

This project models the list bookkeeping under the conference view of the
linphone desktop client, and proves properties of that model:

- **`ProxyList`** (`proxy_list.dfy`) models `ProxyAbstractListModel<T>`. It is
  an ordered list (`mList`) behind a Qt list model. The class `ListModel<T>`
  holds the items as a `seq<T>` and a ghost log of the begin/end notification
  brackets: `Insert(first, last)`, `Remove(first, last)` and `Reset`. Each
  mutating method states the new list and the one notification it adds.
  `removeRows` is all-or-nothing: a range outside the list is refused, and
  then the list and the log stay unchanged.
- **`DeviceModel`** (`device_model.dfy`) models `ParticipantDeviceModel`. Its
  class has three flags: paused, speaking and video enabled. Setters emit a
  change signal only when a flag really changes. The video formula
  (`ComputeVideoEnabled`) and the rule for committing it
  (`CommitVideoEnabled`: only while the call is in `StreamsRunning`) are pure
  functions. Both the class and the device list use them.
- **`DeviceList`** (`device_list.dfy`) models `ParticipantDeviceListModel`.
  It keeps one entry per conference device, matched by device identity, on
  top of a `ProxyList.ListModel<Entry>`. The constructors and `updateDevices`
  append one entry per device the SDK lists without removing duplicates, so
  the entries are unique only when those lists are (`EntriesForUnique`).
  Every handler is a method. Its effect on the whole state (rows, list notifications, signals) is given by a pure
  step function, such as `AddStep`, `RemoveStep` or `SetPausedStep`. What
  the row-level steps do is stated by lemmas beside them (`AddStepEffect`,
  `RemoveStepEffect`, `SetPausedStepEffect`, `RefreshPrefixEffect`,
  `AvailabilityStepKeepsRows`, `CapabilityStepKeepsRows`). The other lemmas
  are about the step functions:
  - `add` keeps devices unique, and so does a whole participant's worth of adds.
  - On a list with unique devices, `remove` leaves no entry for the removed device.
  - `remove` undoes `add` exactly, with no stray signal.
  - A full video refresh never changes membership or order.
  - Left followed by joined only unpauses.
- **`Optional`** (`option.dfy`) is the usual `Option` type.

The SDK is not modelled:
- An SDK device is an opaque identity (`DeviceId`), and so is an SDK address (`Address`).
- What the SDK answers about a device at a given moment is a `DeviceFacts` value passed in.
- While a handler runs, the SDK state is an `Sdk` value passed in: the call state, the local user's devices, the conference's devices, and the facts of each device.
- `weakEqual` is a function parameter.
- Signals are recorded in ghost logs and never delivered.

Behaviour worth knowing, modelled as written:
- `removeRows(row, 0)` with `0 <= row <= count` passes the guard, returns true, and reports `Remove(row, row - 1)`.
- `prepend` of an empty batch reports `Insert(0, -1)`.

The generic list has no filter or comparator of its own: sorting is delegated to Qt's `QSortFilterProxyModel`. Its `resetData` only clears the list. Replacing the contents and looking up by device are done in `ParticipantDeviceListModel`.

## Model

| member | source | states |
|---|---|---|
| ProxyList.ListModel.constructor | linphone-app/src/app/proxyModel/ProxyAbstractListModel.hpp:33 | a new model has an empty list and has emitted nothing |
| ProxyList.ListModel.RowCount | linphone-app/src/app/proxyModel/ProxyAbstractListModel.hpp:39-41 | the row count is always the length of the list |
| ProxyList.ListModel.Data | linphone-app/src/app/proxyModel/ProxyAbstractListModel.hpp:49-56 | a value is returned exactly when the index is valid, its row is in range and the role is DisplayRole, and it is the item at that row; otherwise the result is empty |
| ProxyList.ListModel.GetAt | linphone-app/src/app/proxyModel/ProxyAbstractListModel.hpp:58-60 | unchecked access: the caller must pass a row of the list, and gets the item at that row |
| ProxyList.ListModel.Add | linphone-app/src/app/proxyModel/ProxyAbstractListModel.hpp:63-68 | the list becomes old + [x] and one insert of row n is reported, where n is the old length |
| ProxyList.ListModel.Prepend | linphone-app/src/app/proxyModel/ProxyAbstractListModel.hpp:70-74 | the list becomes [x] + old and one insert of row 0 is reported |
| ProxyList.ListModel.PrependBatch | linphone-app/src/app/proxyModel/ProxyAbstractListModel.hpp:76-81 | the list becomes batch + old, with the batch in its own order at the front, and one insert of rows 0 .. (batch length - 1) is reported |
| ProxyList.PrependBatchIsPrependEach | linphone-app/src/app/proxyModel/ProxyAbstractListModel.hpp:70-81 | prepending a batch gives the same list as prepending its items one at a time, last item first |
| ProxyList.RemoveAccepted | linphone-app/src/app/proxyModel/ProxyAbstractListModel.hpp:88-90 | the removeRows guard accepts exactly the ranges with row >= 0, count >= 0 and row + count <= length |
| ProxyList.RemoveRange | linphone-app/src/app/proxyModel/ProxyAbstractListModel.hpp:91-94 | removing an accepted range leaves (length - count) items: the rows before `row` unchanged, and the rows after the range shifted down by `count` |
| ProxyList.ListModel.RemoveRows | linphone-app/src/app/proxyModel/ProxyAbstractListModel.hpp:87-96 | returns true exactly for an accepted range, then the list is old minus the range (taken out row by row at `row`) and one remove of [row, row+count-1] is reported; otherwise the list and the log are unchanged |
| ProxyList.ListModel.RemoveRow | linphone-app/src/app/proxyModel/ProxyAbstractListModel.hpp:84-86 | behaves as removeRows(row, 1): succeeds exactly for a row of the list, removing only that row under a remove of [row, row] |
| ProxyList.RemoveUndoesInsert | linphone-app/src/app/proxyModel/ProxyAbstractListModel.hpp:63-96 | removing the rows just inserted at a position (by add or either prepend) is accepted and gives back the original list |
| ProxyList.ListModel.ResetData | linphone-app/src/app/proxyModel/ProxyAbstractListModel.hpp:98-102 | the list is emptied under a single reset notification |
| ProxyList.ListModel.Destroy | linphone-app/src/app/proxyModel/ProxyAbstractListModel.hpp:35-37 | the destructor resets: empty list, one reset notification |
| DeviceModel.ComputeVideoEnabled | linphone-app/src/components/participant/ParticipantDeviceModel.cpp:132-136 | video is on for the local user whatever the device; for anyone else it is on for a device in the conference with video available and a SendRecv or SendOnly capability, and off without a device, outside the conference, without available video, or with any other capability |
| DeviceModel.CommitVideoEnabled | linphone-app/src/components/participant/ParticipantDeviceModel.cpp:137-141 | the new flag is the old one or the computed one; it differs from the old one only when a call exists in StreamsRunning, and in that state it is the computed one |
| DeviceModel.CommitIsIdempotent | linphone-app/src/components/participant/ParticipantDeviceModel.cpp:131-142 | re-evaluating with unchanged facts changes nothing more |
| DeviceModel.ChangeSignal | linphone-app/src/components/participant/ParticipantDeviceModel.cpp:117-129 | a flag change emits exactly one signal, and no change emits none |
| DeviceModel.ParticipantDeviceModel.constructor | linphone-app/src/components/participant/ParticipantDeviceModel.cpp:40-54 | video starts off and is on after construction exactly when a call exists, it is in StreamsRunning and the computed value is on (with one signal then) |
| DeviceModel.ParticipantDeviceModel.Name | linphone-app/src/components/participant/ParticipantDeviceModel.cpp:72-74 | "NoName" for a null device, the SDK's name otherwise |
| DeviceModel.ParticipantDeviceModel.DisplayName | linphone-app/src/components/participant/ParticipantDeviceModel.cpp:76-78 | "" for a null device, the SDK's display name otherwise |
| DeviceModel.ParticipantDeviceModel.SecurityLevel | linphone-app/src/components/participant/ParticipantDeviceModel.cpp:80-86 | 0 for a null device, the SDK's level otherwise |
| DeviceModel.ParticipantDeviceModel.TimeOfJoining | linphone-app/src/components/participant/ParticipantDeviceModel.cpp:88-90 | 0 for a null device, the SDK's joining time otherwise |
| DeviceModel.ParticipantDeviceModel.AddressUri | linphone-app/src/components/participant/ParticipantDeviceModel.cpp:92-95 | "" for a null device, the SDK's address URI otherwise |
| DeviceModel.ParticipantDeviceModel.IsMuted | linphone-app/src/components/participant/ParticipantDeviceModel.cpp:105-107 | false for a null device, the SDK's muted state otherwise |
| DeviceModel.ParticipantDeviceModel.SetPaused | linphone-app/src/components/participant/ParticipantDeviceModel.cpp:117-122 | paused becomes p, the other flags are kept, and isPausedChanged is emitted once only if the value differed, so a repeated call emits nothing |
| DeviceModel.ParticipantDeviceModel.SetIsSpeaking | linphone-app/src/components/participant/ParticipantDeviceModel.cpp:124-129 | the same change-only-then-emit rule for the speaking flag |
| DeviceModel.ParticipantDeviceModel.UpdateVideoEnabled | linphone-app/src/components/participant/ParticipantDeviceModel.cpp:131-142 | the video flag becomes the committed value of the computed formula, with one videoEnabledChanged only when it changed; paused and speaking are kept |
| DeviceModel.ParticipantDeviceModel.OnCallStatusChanged | linphone-app/src/components/participant/ParticipantDeviceModel.cpp:153-157 | outside StreamsRunning nothing changes; in StreamsRunning the video flag becomes the computed value |
| DeviceModel.ParticipantDeviceModel.OnSecurityLevelChanged | linphone-app/src/components/participant/ParticipantDeviceModel.cpp:148-151 | one securityLevelChanged is emitted exactly when the address is null, or the device exists and its address weakly equals it; no flag changes |
| DeviceList.IndexOf | linphone-app/src/components/participant/ParticipantDeviceListModel.cpp:118-130 | the row of the first entry for the device (no earlier entry has it), and none exactly when no entry has it |
| DeviceList.MeAloneWithoutCall | linphone-app/src/components/participant/ParticipantDeviceListModel.cpp:132-151 | without a call model isMe is always false, so the user is "alone" only in an empty list |
| DeviceList.NewEntry | linphone-app/src/components/participant/ParticipantDeviceListModel.cpp:96 | a created entry is for the device, is "me" exactly when isMe says so, starts unpaused and silent, and has video on only in StreamsRunning with the formula on |
| DeviceList.RefreshVideo | linphone-app/src/components/participant/ParticipantDeviceListModel.cpp:89-92 | updateVideoEnabled on an entry changes only its video flag, and only in StreamsRunning, where the flag becomes the computed value |
| DeviceList.RefreshAtEffect | linphone-app/src/components/participant/ParticipantDeviceListModel.cpp:91 | refreshing one row changes that row's video only; every other row is left as it was |
| DeviceList.SetPausedAt | linphone-app/src/components/participant/ParticipantDeviceListModel.cpp:196 | setPaused on a row changes only that row's paused flag and emits no list notification |
| DeviceList.AddStepEffect | linphone-app/src/components/participant/ParticipantDeviceListModel.cpp:85-102 | afterwards the device is present; a present device leaves length, device order and notifications unchanged; an absent one gets exactly one new entry appended at the end, with an insert of that row |
| DeviceList.AddStepKeepsPresent | linphone-app/src/components/participant/ParticipantDeviceListModel.cpp:85-102 | add never drops a device that had an entry |
| DeviceList.AddStepKeepsUnique | linphone-app/src/components/participant/ParticipantDeviceListModel.cpp:85-102 | add preserves "no two entries share a device" |
| DeviceList.RemoveStepEffect | linphone-app/src/components/participant/ParticipantDeviceListModel.cpp:104-116 | removes exactly the first entry for the device, under a remove of its row; with no entry, nothing changes |
| DeviceList.RemoveStepDropsDevice | linphone-app/src/components/participant/ParticipantDeviceListModel.cpp:104-116 | on unique devices remove keeps them unique, leaves no entry for the device and brings no absent device back |
| DeviceList.RemoveUndoesAdd | linphone-app/src/components/participant/ParticipantDeviceListModel.cpp:85-116 | removing a device just added restores the rows and signals exactly, leaving only the insert and remove notifications |
| DeviceList.SetPausedStepEffect | linphone-app/src/components/participant/ParticipantDeviceListModel.cpp:192-211 | joined/left on a present device changes only its entry's paused flag; on an absent device nothing changes |
| DeviceList.LeftThenJoined | linphone-app/src/components/participant/ParticipantDeviceListModel.cpp:192-211 | left then joined on a present device leaves it unpaused and every other row as before |
| DeviceList.DeviceAddedStep | linphone-app/src/components/participant/ParticipantDeviceListModel.cpp:173-184 | the device is added only if the conference lists it; otherwise nothing changes |
| DeviceList.RefreshPrefixEffect | linphone-app/src/components/participant/ParticipantDeviceListModel.cpp:231-236 | refreshing the first n rows in order refreshes the video of each of them and leaves every later row as it was |
| DeviceList.ParticipantDeviceListModel.RefreshAllEntries | linphone-app/src/components/participant/ParticipantDeviceListModel.cpp:231-236 | the state after updateVideoEnabled on every row, in order, is RefreshPrefix over the whole list |
| DeviceList.RefreshAllKeepsRows | linphone-app/src/components/participant/ParticipantDeviceListModel.cpp:231-236 | refreshing every entry changes no device, no order and no paused flag |
| DeviceList.AddAllKeepsUnique | linphone-app/src/components/participant/ParticipantDeviceListModel.cpp:158-165 | adding all of a participant's devices keeps devices unique, and afterwards each of them has an entry |
| DeviceList.RemoveAllDropsDevices | linphone-app/src/components/participant/ParticipantDeviceListModel.cpp:167-171 | removing all of a participant's devices keeps devices unique, and afterwards none of them has an entry |
| DeviceList.EntriesFor | linphone-app/src/components/participant/ParticipantDeviceListModel.cpp:73-78 | one fresh entry per device, in the given order, so reading the rows back gives the devices in order |
| DeviceList.EntriesForUnique | linphone-app/src/components/participant/ParticipantDeviceListModel.cpp:73-78 | the rows built for a device list have unique devices exactly when the list has no duplicate device |
| DeviceList.ParticipantDeviceListModel.FromParticipant | linphone-app/src/components/participant/ParticipantDeviceListModel.cpp:33-42 | no call model; the rows are one entry per device of the participant, none of them "me", with nothing emitted |
| DeviceList.ParticipantDeviceListModel.FromCall | linphone-app/src/components/participant/ParticipantDeviceListModel.cpp:44-66 | for a conference call, the rows are one entry per conference device; otherwise the list is empty |
| DeviceList.ParticipantDeviceListModel.CreateEntry | linphone-app/src/components/participant/ParticipantDeviceListModel.cpp:96 | a ParticipantDeviceModel built with the list's call and isMe gives exactly the entry NewEntry describes |
| DeviceList.ParticipantDeviceListModel.AppendEntries | linphone-app/src/components/participant/ParticipantDeviceListModel.cpp:73-78 | appends one fresh entry per device, in order, with no notification |
| DeviceList.ParticipantDeviceListModel.IsMe | linphone-app/src/components/participant/ParticipantDeviceListModel.cpp:132-142 | true exactly when a call model exists and one of the local user's devices has the device's address |
| DeviceList.ParticipantDeviceListModel.IsMeAlone | linphone-app/src/components/participant/ParticipantDeviceListModel.cpp:144-151 | true exactly when every entry is "me" by isMe (so true for the empty list) |
| DeviceList.ParticipantDeviceListModel.Get | linphone-app/src/components/participant/ParticipantDeviceListModel.cpp:118-130 | finds an entry exactly when one has the device; it is the first such entry and its row is reported; on a miss the index is left as it was |
| DeviceList.ParticipantDeviceListModel.RefreshEntry | linphone-app/src/components/participant/ParticipantDeviceListModel.cpp:91 | the state after updateVideoEnabled on a row is RefreshAt of the state before |
| DeviceList.ParticipantDeviceListModel.SetEntryPaused | linphone-app/src/components/participant/ParticipantDeviceListModel.cpp:196 | the state after setPaused on a row is SetPausedAt of the state before |
| DeviceList.ParticipantDeviceListModel.UpdateDevices | linphone-app/src/components/participant/ParticipantDeviceListModel.cpp:68-80 | the rows are replaced by one fresh entry per device of the participant, in its order, under one reset notification |
| DeviceList.ParticipantDeviceListModel.UpdateDevicesFor | linphone-app/src/components/participant/ParticipantDeviceListModel.cpp:82-83 | changes nothing |
| DeviceList.ParticipantDeviceListModel.Add | linphone-app/src/components/participant/ParticipantDeviceListModel.cpp:85-102 | returns true exactly when no entry had the device; the new state is AddStep of the old one |
| DeviceList.ParticipantDeviceListModel.Remove | linphone-app/src/components/participant/ParticipantDeviceListModel.cpp:104-116 | returns true exactly when an entry had the device; the new state is RemoveStep of the old one |
| DeviceList.ParticipantDeviceListModel.OnSecurityLevelChanged | linphone-app/src/components/participant/ParticipantDeviceListModel.cpp:153-155 | relays the changed address once |
| DeviceList.ParticipantDeviceListModel.OnParticipantAdded | linphone-app/src/components/participant/ParticipantDeviceListModel.cpp:158-165 | the new state is add applied to each device of the participant in order (nothing for a participant with no device) |
| DeviceList.ParticipantDeviceListModel.OnParticipantRemoved | linphone-app/src/components/participant/ParticipantDeviceListModel.cpp:167-171 | the new state is remove applied to each device of the participant in order |
| DeviceList.ParticipantDeviceListModel.OnParticipantDeviceAdded | linphone-app/src/components/participant/ParticipantDeviceListModel.cpp:173-184 | needs the call model; adds the device only if the conference lists it, and otherwise changes nothing |
| DeviceList.ParticipantDeviceListModel.OnParticipantDeviceRemoved | linphone-app/src/components/participant/ParticipantDeviceListModel.cpp:186-190 | the new state is RemoveStep of the old one |
| DeviceList.ParticipantDeviceListModel.OnParticipantDeviceJoined | linphone-app/src/components/participant/ParticipantDeviceListModel.cpp:192-201 | unpauses the device's entry if it has one, and otherwise handles it as onParticipantDeviceAdded (which needs the call model) |
| DeviceList.ParticipantDeviceListModel.OnParticipantDeviceLeft | linphone-app/src/components/participant/ParticipantDeviceListModel.cpp:203-211 | pauses the device's entry if it has one, and otherwise changes nothing |
| DeviceList.ParticipantDeviceListModel.OnConferenceStateChanged | linphone-app/src/components/participant/ParticipantDeviceListModel.cpp:213-221 | never changes the list: the updateDevices it calls is empty |
| DeviceList.AvailabilityStepKeepsRows | linphone-app/src/components/participant/ParticipantDeviceListModel.cpp:239-245 | an availability change removes and moves no row; one fresh entry for the device is appended exactly when it had none and the conference lists it |
| DeviceList.CapabilityStepKeepsRows | linphone-app/src/components/participant/ParticipantDeviceListModel.cpp:223-237 | a capability change, including the full refresh, removes and moves no row; one entry for the device is appended exactly when it had none and the conference lists it |
| DeviceList.ParticipantDeviceListModel.OnParticipantDeviceMediaCapabilityChanged | linphone-app/src/components/participant/ParticipantDeviceListModel.cpp:223-237 | refreshes the device's entry (or handles it as added), then refreshes every entry when that entry is "me" |
| DeviceList.ParticipantDeviceListModel.OnParticipantDeviceMediaAvailabilityChanged | linphone-app/src/components/participant/ParticipantDeviceListModel.cpp:239-245 | refreshes the device's entry, or handles it as added |
| DeviceList.ParticipantDeviceListModel.OnParticipantDeviceIsSpeakingChanged | linphone-app/src/components/participant/ParticipantDeviceListModel.cpp:247-253 | emits participantSpeaking once when a device with an entry starts speaking, and otherwise nothing |

## Left out

- `SortFilterAbstractProxyModel`: sorting and filtering are done by Qt's `QSortFilterProxyModel`, which is not part of this model. The file only sets the source, asks for a descending sort, and forwards `add`.
- `ConferenceModel`, `ConferenceInfoModel` and `MediastreamerUtils` are not part of this model. The first forwards SDK listener events as signals. The second declares date/time-based members without bodies. The third is floating-point metering over the mediastreamer library.
- `roleNames` is not modelled: it is a constant one-entry table naming the display role.
- Qt `connect` wiring, SDK listener registration, QML ownership and logging are not modelled. So is the delivery of signals: they are kept only as ghost logs.
- `onParticipantDeviceSpeaking` is not modelled. It re-emits for the `sender()` of a Qt signal.
- `ParticipantDeviceModel`'s listener slots (`onIsSpeakingChanged`, `onIsMuted`, `onConferenceJoined`, `onConferenceLeft`, `onStreamCapabilityChanged`, `onStreamAvailabilityChanged`) are not modelled separately. Each one only calls `setIsSpeaking`, calls `updateVideoEnabled`, or emits a signal.
- The plain field getters (`getPaused`, `getIsSpeaking`, `isVideoEnabled`, `isMe`, `getDevice`) are not modelled: the model reads the fields directly.
- Entries of the device list are values. The list's shared pointers to `ParticipantDeviceModel` objects are not modelled, and neither is their aliasing. An entry's flags follow the same rules as the class, through the shared functions `ComputeVideoEnabled`, `CommitVideoEnabled` and `ChangeSignal`. An entry's signals are recorded in the list's log. Signals an entry emits from its own constructor reach no receiver, and are not recorded.
- SDK objects are opaque identities. `getDisplayName`, `asStringUriOnly` and the other string conversions are SDK answers passed in. `weakEqual` is a parameter. The list's `isMe` compares address identities, as the code compares address pointers.
- The initial values of `mIsPaused` and `mIsSpeaking` are set in the header, which is not part of this model. The model takes them as false.
- `ProxyListModel` (the list's direct base class, with its template `add`) is not part of this model. The model takes its `add` to be `ProxyAbstractListModel::add`.
- In the constructor from a call, `mCallModel` is assigned only for a conference call. The model treats any other call as having no call model.
- Sizes and rows are unbounded integers. The `int` limits of `QList` are not modelled.
- RemoveAccepted: `row + count - 1` in `removeRows` (ProxyAbstractListModel.hpp:88) is a signed `int` sum that can overflow in C++. With wrap-around, `removeRows(2, INT_MAX)` on a 5-row list would pass the guard and then remove past the end of the list; the model computes the sum exactly and refuses that call.
