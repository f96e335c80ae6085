/**
  ParticipantDeviceListModel: the list of a conference's devices shown by the
  UI, one entry per device, matched by device identity. It is built on a
  ProxyList.ListModel whose rows are the entries. Each handler of a conference
  event is a method whose effect on the whole state (rows, notifications,
  signals) is given by a pure step function; the lemmas below are about those
  step functions.
 */
module DeviceList {
  import opened Optional
  import ProxyList
  import opened DeviceModel

  /** One row: the device and the flags of its ParticipantDeviceModel. */
  datatype Entry = Entry(device: DeviceId, isMe: bool, paused: bool, speaking: bool, videoEnabled: bool)

  /** What the SDK answers while one handler runs: the call's state, the local
      user's devices, the conference's devices, and the facts of every device. */
  datatype Sdk = Sdk(callState: CallState, me: seq<DeviceId>, conferenceDevices: seq<DeviceId>,
                     facts: DeviceId -> DeviceFacts)

  /** linphone::Conference::State, as far as this component tells states apart. */
  datatype ConferenceState = Created | OtherConferenceState

  /** The signals emitted by the list or by one of its entries. */
  datatype ListSignal =
    | EntryChanged(device: DeviceId, signal: Signal)
    | ParticipantSpeaking(device: DeviceId)
    | SecurityLevelRelayed(address: Option<Address>)

  /** The whole observable state: the rows, the list notifications, the signals. */
  datatype State = State(items: seq<Entry>, events: seq<ProxyList.Notification>, signals: seq<ListSignal>)

  predicate Present(items: seq<Entry>, d: DeviceId)
  {
    exists k :: 0 <= k < |items| && items[k].device == d
  }

  /** No two entries share a device. */
  predicate Unique(items: seq<Entry>)
  {
    forall i, j :: 0 <= i < j < |items| ==> items[i].device != items[j].device
  }

  /** The position of the first entry for `d`, the one every scan of the list finds. */
  function IndexOf(items: seq<Entry>, d: DeviceId): (r: Option<nat>)
    ensures r.Some? ==> r.value < |items| && items[r.value].device == d
    ensures r.Some? ==> forall k :: 0 <= k < r.value ==> items[k].device != d
    ensures r.None? <==> !Present(items, d)
    decreases |items|
  {
    if items == [] then None
    else if items[0].device == d then Some(0)
    else match IndexOf(items[1..], d)
      case None => None
      case Some(k) => Some(k + 1)
  }

  /** A first match found by a scan is the one IndexOf names. */
  lemma FirstMatchIsIndexOf(items: seq<Entry>, d: DeviceId, i: int)
    requires 0 <= i < |items| && items[i].device == d
    requires forall k :: 0 <= k < i ==> items[k].device != d
    ensures IndexOf(items, d) == Some(i)
  {
  }

  /** isMe: with a call, a device is the local user's when its address is the
      address of one of the local user's devices; without a call it never is. */
  predicate IsMeIn(hasCall: bool, d: DeviceId, sdk: Sdk)
  {
    hasCall && exists j :: 0 <= j < |sdk.me| && sdk.facts(sdk.me[j]).address == sdk.facts(d).address
  }

  /** isMeAlone: every entry is one of the local user's devices. */
  predicate AllMe(hasCall: bool, items: seq<Entry>, sdk: Sdk)
  {
    forall k :: 0 <= k < |items| ==> IsMeIn(hasCall, items[k].device, sdk)
  }

  /** Without a call no device is "me", so the user is alone only in an empty list. */
  lemma MeAloneWithoutCall(items: seq<Entry>, sdk: Sdk)
    ensures AllMe(false, items, sdk) <==> items == []
  {
    if items != [] {
      assert !IsMeIn(false, items[0].device, sdk);
    }
  }

  /** The entry of a freshly created ParticipantDeviceModel for `d`. */
  function NewEntry(d: DeviceId, hasCall: bool, sdk: Sdk): (e: Entry)
    ensures e.device == d && e.isMe == IsMeIn(hasCall, d, sdk)
    ensures !e.paused && !e.speaking
    ensures e.videoEnabled <==> hasCall && sdk.callState == StreamsRunning
                                && ComputeVideoEnabled(Some(sdk.facts(d)), e.isMe)
  {
    var me := IsMeIn(hasCall, d, sdk);
    Entry(d, me, false, false,
          CommitVideoEnabled(false, ComputeVideoEnabled(Some(sdk.facts(d)), me), hasCall, sdk.callState))
  }

  /** An entry after updateVideoEnabled: only the video flag may change. */
  function RefreshVideo(e: Entry, hasCall: bool, sdk: Sdk): (r: Entry)
    ensures r.device == e.device && r.isMe == e.isMe && r.paused == e.paused && r.speaking == e.speaking
    ensures r.videoEnabled != e.videoEnabled ==> hasCall && sdk.callState == StreamsRunning
    ensures hasCall && sdk.callState == StreamsRunning ==>
              r.videoEnabled == ComputeVideoEnabled(Some(sdk.facts(e.device)), e.isMe)
  {
    e.(videoEnabled := CommitVideoEnabled(e.videoEnabled, ComputeVideoEnabled(Some(sdk.facts(e.device)), e.isMe),
                                          hasCall, sdk.callState))
  }

  /** The signals of the entry for `d`, as the list's log records them. */
  function Relay(d: DeviceId, emitted: seq<Signal>): (r: seq<ListSignal>)
    ensures |r| == |emitted|
    ensures forall k :: 0 <= k < |r| ==> r[k] == EntryChanged(d, emitted[k])
  {
    seq(|emitted|, k requires 0 <= k < |emitted| => EntryChanged(d, emitted[k]))
  }

  /** updateVideoEnabled on the entry at row i. */
  function RefreshAt(st: State, i: nat, hasCall: bool, sdk: Sdk): (r: State)
    requires i < |st.items|
    ensures |r.items| == |st.items| && r.events == st.events
  {
    var e := RefreshVideo(st.items[i], hasCall, sdk);
    State(st.items[i := e], st.events,
          st.signals + Relay(e.device, ChangeSignal(st.items[i].videoEnabled, e.videoEnabled, VideoEnabledChanged)))
  }

  /** setPaused on the entry at row i. */
  function SetPausedAt(st: State, i: nat, paused: bool): (r: State)
    requires i < |st.items|
    ensures r.items == st.items[i := st.items[i].(paused := paused)] && r.events == st.events
  {
    var e := st.items[i];
    State(st.items[i := e.(paused := paused)], st.events,
          st.signals + Relay(e.device, ChangeSignal(e.paused, paused, IsPausedChanged)))
  }

  /** add(d): an existing entry for d only has its video refreshed and the rows
      keep their devices and order; otherwise one entry for d is appended. */
  function AddStep(st: State, d: DeviceId, hasCall: bool, sdk: Sdk): State
  {
    match IndexOf(st.items, d)
    case Some(i) => RefreshAt(st, i, hasCall, sdk)
    case None =>
      State(st.items + [NewEntry(d, hasCall, sdk)], st.events + [ProxyList.Insert(|st.items|, |st.items|)], st.signals)
  }

  /** remove(d): the first entry for d is taken out under one remove
      notification of its row; with no entry for d nothing happens. */
  function RemoveStep(st: State, d: DeviceId, hasCall: bool, sdk: Sdk): State
  {
    match IndexOf(st.items, d)
    case None => st
    case Some(i) =>
      var refreshed := RefreshAt(st, i, hasCall, sdk);
      State(ProxyList.RemoveRange(refreshed.items, i, 1), st.events + [ProxyList.Remove(i, i)], refreshed.signals)
  }

  /** The joined/left handlers on a present device: only its paused flag changes. */
  function SetPausedStep(st: State, d: DeviceId, paused: bool): State
  {
    match IndexOf(st.items, d)
    case None => st
    case Some(i) => SetPausedAt(st, i, paused)
  }

  /** onParticipantDeviceAdded: add d only when the conference lists it. */
  function DeviceAddedStep(st: State, d: DeviceId, hasCall: bool, sdk: Sdk): (r: State)
    ensures d !in sdk.conferenceDevices ==> r == st
    ensures d in sdk.conferenceDevices ==> r == AddStep(st, d, hasCall, sdk)
  {
    if d in sdk.conferenceDevices then AddStep(st, d, hasCall, sdk) else st
  }

  /** onParticipantDeviceJoined */
  function JoinedStep(st: State, d: DeviceId, hasCall: bool, sdk: Sdk): State
  {
    if Present(st.items, d) then SetPausedStep(st, d, false) else DeviceAddedStep(st, d, hasCall, sdk)
  }

  /** updateVideoEnabled on the first n entries, in row order. */
  function RefreshPrefix(st: State, n: nat, hasCall: bool, sdk: Sdk): (r: State)
    requires n <= |st.items|
    ensures |r.items| == |st.items| && r.events == st.events
    decreases n
  {
    if n == 0 then st else RefreshAt(RefreshPrefix(st, n - 1, hasCall, sdk), n - 1, hasCall, sdk)
  }

  /** onParticipantDeviceMediaAvailabilityChanged */
  function AvailabilityStep(st: State, d: DeviceId, hasCall: bool, sdk: Sdk): State
  {
    match IndexOf(st.items, d)
    case Some(i) => RefreshAt(st, i, hasCall, sdk)
    case None => DeviceAddedStep(st, d, hasCall, sdk)
  }

  /** onParticipantDeviceMediaCapabilityChanged: refresh the device (or add it
      when it is new), as on an availability change; then, when the device is
      the local user's, refresh every entry. */
  function CapabilityStep(st: State, d: DeviceId, hasCall: bool, sdk: Sdk): State
  {
    var first := AvailabilityStep(st, d, hasCall, sdk);
    match IndexOf(first.items, d)
    case Some(j) =>
      if first.items[j].isMe then RefreshPrefix(first, |first.items|, hasCall, sdk) else first
    case None => first
  }

  /** onParticipantDeviceIsSpeakingChanged */
  function SpeakingStep(st: State, d: DeviceId, speaking: bool): State
  {
    if speaking && Present(st.items, d) then st.(signals := st.signals + [ParticipantSpeaking(d)]) else st
  }

  /** add(d) for each device of a participant, in order. */
  function AddAll(st: State, ds: seq<DeviceId>, hasCall: bool, sdk: Sdk): State
    decreases |ds|
  {
    if ds == [] then st else AddStep(AddAll(st, ds[..|ds| - 1], hasCall, sdk), ds[|ds| - 1], hasCall, sdk)
  }

  /** remove(d) for each device of a participant, in order. */
  function RemoveAll(st: State, ds: seq<DeviceId>, hasCall: bool, sdk: Sdk): State
    decreases |ds|
  {
    if ds == [] then st else RemoveStep(RemoveAll(st, ds[..|ds| - 1], hasCall, sdk), ds[|ds| - 1], hasCall, sdk)
  }

  /** The rows built for a device list: one fresh entry per device, in order. */
  function EntriesFor(ds: seq<DeviceId>, hasCall: bool, sdk: Sdk): (r: seq<Entry>)
    ensures |r| == |ds|
    ensures forall k :: 0 <= k < |ds| ==> r[k] == NewEntry(ds[k], hasCall, sdk) && r[k].device == ds[k]
  {
    seq(|ds|, k requires 0 <= k < |ds| => NewEntry(ds[k], hasCall, sdk))
  }

  // ---------------------------------------------------------------------------
  // Properties of the step functions

  /** Refreshing one row changes that row's video only. */
  lemma RefreshAtEffect(st: State, i: nat, hasCall: bool, sdk: Sdk)
    requires i < |st.items|
    ensures var r := RefreshAt(st, i, hasCall, sdk);
            r.items[i] == RefreshVideo(st.items[i], hasCall, sdk)
            && (forall k :: 0 <= k < |st.items| && k != i ==> r.items[k] == st.items[k])
  {
  }

  /** add(d): a present device keeps the length, the devices in their order and
      the notifications; an absent one gets one fresh entry appended, under an
      insert of its row. Either way d is present afterwards. */
  lemma AddStepEffect(st: State, d: DeviceId, hasCall: bool, sdk: Sdk)
    ensures var r := AddStep(st, d, hasCall, sdk);
            Present(r.items, d)
            && (Present(st.items, d) ==>
                  |r.items| == |st.items| && r.events == st.events
                  && forall k :: 0 <= k < |st.items| ==> r.items[k].device == st.items[k].device)
            && (!Present(st.items, d) ==>
                  |r.items| == |st.items| + 1 && r.items[..|st.items|] == st.items
                  && r.items[|st.items|] == NewEntry(d, hasCall, sdk)
                  && r.events == st.events + [ProxyList.Insert(|st.items|, |st.items|)]
                  && r.signals == st.signals)
  {
    var r := AddStep(st, d, hasCall, sdk);
    match IndexOf(st.items, d)
    case Some(i) =>
      RefreshAtEffect(st, i, hasCall, sdk);
      assert r.items[i].device == d;
    case None =>
      assert r.items[|st.items|].device == d;
  }

  /** remove(d) takes out exactly the first entry for d, under a remove of its
      row; with no entry for d nothing changes. */
  lemma RemoveStepEffect(st: State, d: DeviceId, hasCall: bool, sdk: Sdk)
    ensures var r := RemoveStep(st, d, hasCall, sdk);
            (!Present(st.items, d) ==> r == st)
            && (Present(st.items, d) ==>
                  var i := IndexOf(st.items, d).value;
                  r.items == st.items[..i] + st.items[i + 1..]
                  && r.events == st.events + [ProxyList.Remove(i, i)])
  {
    if Present(st.items, d) {
      var i := IndexOf(st.items, d).value;
      RefreshAtEffect(st, i, hasCall, sdk);
      var refreshed := RefreshAt(st, i, hasCall, sdk);
      assert refreshed.items[..i] == st.items[..i];
      assert refreshed.items[i + 1..] == st.items[i + 1..];
    }
  }

  /** joined/left on a present device changes only its entry's paused flag;
      on an absent device nothing changes. */
  lemma SetPausedStepEffect(st: State, d: DeviceId, paused: bool)
    ensures var r := SetPausedStep(st, d, paused);
            (!Present(st.items, d) ==> r == st)
            && (Present(st.items, d) ==>
                  var i := IndexOf(st.items, d).value;
                  r.items == st.items[i := st.items[i].(paused := paused)] && r.events == st.events)
  {
  }

  /** Refreshing the first n rows in order refreshes each of them and leaves the others. */
  lemma {:induction false} RefreshPrefixEffect(st: State, n: nat, hasCall: bool, sdk: Sdk)
    requires n <= |st.items|
    ensures var r := RefreshPrefix(st, n, hasCall, sdk);
            (forall k :: 0 <= k < n ==> r.items[k] == RefreshVideo(st.items[k], hasCall, sdk))
            && (forall k :: n <= k < |st.items| ==> r.items[k] == st.items[k])
    decreases n
  {
    if n > 0 {
      RefreshPrefixEffect(st, n - 1, hasCall, sdk);
      RefreshAtEffect(RefreshPrefix(st, n - 1, hasCall, sdk), n - 1, hasCall, sdk);
    }
  }

  /** A device that has an entry keeps one through add. */
  lemma AddStepKeepsPresent(st: State, d: DeviceId, x: DeviceId, hasCall: bool, sdk: Sdk)
    requires Present(st.items, x)
    ensures Present(AddStep(st, d, hasCall, sdk).items, x)
  {
    AddStepEffect(st, d, hasCall, sdk);
    var r := AddStep(st, d, hasCall, sdk);
    var k :| 0 <= k < |st.items| && st.items[k].device == x;
    if !Present(st.items, d) {
      assert r.items[k] == r.items[..|st.items|][k];
    }
    assert r.items[k].device == x;
  }

  /** add preserves "no two entries share a device". */
  lemma AddStepKeepsUnique(st: State, d: DeviceId, hasCall: bool, sdk: Sdk)
    requires Unique(st.items)
    ensures Unique(AddStep(st, d, hasCall, sdk).items)
  {
    AddStepEffect(st, d, hasCall, sdk);
    var r := AddStep(st, d, hasCall, sdk);
    if !Present(st.items, d) {
      forall i, j | 0 <= i < j < |r.items| ensures r.items[i].device != r.items[j].device {
        assert r.items[i] == r.items[..|st.items|][i];
        if j < |st.items| {
          assert r.items[j] == r.items[..|st.items|][j];
        }
      }
    }
  }

  /** onParticipantAdded keeps the devices unique and leaves every device of
      the participant in the list. */
  lemma {:induction false} AddAllKeepsUnique(st: State, ds: seq<DeviceId>, hasCall: bool, sdk: Sdk)
    requires Unique(st.items)
    ensures Unique(AddAll(st, ds, hasCall, sdk).items)
    ensures forall k :: 0 <= k < |ds| ==> Present(AddAll(st, ds, hasCall, sdk).items, ds[k])
    decreases |ds|
  {
    if ds != [] {
      var n := |ds| - 1;
      var mid := AddAll(st, ds[..n], hasCall, sdk);
      var r := AddStep(mid, ds[n], hasCall, sdk);
      assert AddAll(st, ds, hasCall, sdk) == r;
      AddAllKeepsUnique(st, ds[..n], hasCall, sdk);
      AddStepKeepsUnique(mid, ds[n], hasCall, sdk);
      forall k | 0 <= k < |ds| ensures Present(r.items, ds[k]) {
        if k < n {
          assert ds[..n][k] == ds[k];
          AddStepKeepsPresent(mid, ds[n], ds[k], hasCall, sdk);
        } else {
          AddStepEffect(mid, ds[n], hasCall, sdk);
        }
      }
    }
  }

  /** remove keeps devices unique, never brings a device back, and with unique
      devices leaves no entry for the removed one. */
  lemma RemoveStepDropsDevice(st: State, d: DeviceId, x: DeviceId, hasCall: bool, sdk: Sdk)
    requires Unique(st.items)
    ensures Unique(RemoveStep(st, d, hasCall, sdk).items)
    ensures !Present(RemoveStep(st, d, hasCall, sdk).items, d)
    ensures !Present(st.items, x) ==> !Present(RemoveStep(st, d, hasCall, sdk).items, x)
  {
    RemoveStepEffect(st, d, hasCall, sdk);
    var r := RemoveStep(st, d, hasCall, sdk);
    if Present(st.items, d) {
      var i := IndexOf(st.items, d).value;
      forall k | 0 <= k < |r.items| ensures r.items[k] == st.items[if k < i then k else k + 1] {
        if k < i {
          assert r.items[k] == st.items[..i][k];
        } else {
          assert r.items[k] == st.items[i + 1..][k - i];
        }
      }
    }
  }

  /** onParticipantRemoved, on a list with unique devices, leaves no entry for
      any device of the participant and keeps the devices unique. */
  lemma {:induction false} RemoveAllDropsDevices(st: State, ds: seq<DeviceId>, hasCall: bool, sdk: Sdk)
    requires Unique(st.items)
    ensures Unique(RemoveAll(st, ds, hasCall, sdk).items)
    ensures forall k :: 0 <= k < |ds| ==> !Present(RemoveAll(st, ds, hasCall, sdk).items, ds[k])
    decreases |ds|
  {
    if ds != [] {
      var n := |ds| - 1;
      var mid := RemoveAll(st, ds[..n], hasCall, sdk);
      var r := RemoveStep(mid, ds[n], hasCall, sdk);
      assert RemoveAll(st, ds, hasCall, sdk) == r;
      RemoveAllDropsDevices(st, ds[..n], hasCall, sdk);
      RemoveStepDropsDevice(mid, ds[n], ds[n], hasCall, sdk);
      forall k | 0 <= k < |ds| ensures !Present(r.items, ds[k]) {
        if k < n {
          assert ds[..n][k] == ds[k];
          RemoveStepDropsDevice(mid, ds[n], ds[k], hasCall, sdk);
        }
      }
    }
  }

  /** Removing a device just added gives back the same rows and signals: the
      refresh done on removal finds nothing to change in a fresh entry. */
  lemma RemoveUndoesAdd(st: State, d: DeviceId, hasCall: bool, sdk: Sdk)
    requires !Present(st.items, d)
    ensures RemoveStep(AddStep(st, d, hasCall, sdk), d, hasCall, sdk)
            == State(st.items, st.events + [ProxyList.Insert(|st.items|, |st.items|),
                                             ProxyList.Remove(|st.items|, |st.items|)], st.signals)
  {
    var added := AddStep(st, d, hasCall, sdk);
    var n := |st.items|;
    var e := NewEntry(d, hasCall, sdk);
    AddStepEffect(st, d, hasCall, sdk);
    FirstMatchIsIndexOf(added.items, d, n);
    CommitIsIdempotent(false, ComputeVideoEnabled(Some(sdk.facts(d)), e.isMe), hasCall, sdk.callState);
    assert RefreshVideo(e, hasCall, sdk) == e;
    assert added.items[..n] == st.items;
  }

  /** Refreshing every entry changes no device, no order and no paused flag. */
  lemma RefreshAllKeepsRows(st: State, hasCall: bool, sdk: Sdk)
    ensures var r := RefreshPrefix(st, |st.items|, hasCall, sdk);
            |r.items| == |st.items| && r.events == st.events
            && forall k :: 0 <= k < |st.items| ==>
                 r.items[k].device == st.items[k].device && r.items[k].paused == st.items[k].paused
  {
    RefreshPrefixEffect(st, |st.items|, hasCall, sdk);
  }

  /** The rows built for a device list have unique devices exactly when the
      device list has no duplicate. */
  lemma EntriesForUnique(ds: seq<DeviceId>, hasCall: bool, sdk: Sdk)
    ensures Unique(EntriesFor(ds, hasCall, sdk)) <==> forall i, j :: 0 <= i < j < |ds| ==> ds[i] != ds[j]
  {
    var r := EntriesFor(ds, hasCall, sdk);
    if Unique(r) {
      forall i, j | 0 <= i < j < |ds| ensures ds[i] != ds[j] {
        assert r[i].device != r[j].device;
      }
    }
  }

  /** An availability change removes no row and moves none; a row is appended
      only for a device that had none and that the conference lists, and it
      is a fresh entry for that device. */
  lemma AvailabilityStepKeepsRows(st: State, d: DeviceId, hasCall: bool, sdk: Sdk)
    ensures var r := AvailabilityStep(st, d, hasCall, sdk);
            |st.items| <= |r.items| <= |st.items| + 1
            && (forall k :: 0 <= k < |st.items| ==> r.items[k].device == st.items[k].device)
            && (|r.items| == |st.items| + 1 <==> !Present(st.items, d) && d in sdk.conferenceDevices)
            && (|r.items| == |st.items| + 1 ==> r.items[|st.items|] == NewEntry(d, hasCall, sdk))
  {
    var r := AvailabilityStep(st, d, hasCall, sdk);
    match IndexOf(st.items, d)
    case Some(i) =>
      RefreshAtEffect(st, i, hasCall, sdk);
    case None =>
      if d in sdk.conferenceDevices {
        AddStepEffect(st, d, hasCall, sdk);
        forall k | 0 <= k < |st.items| ensures r.items[k].device == st.items[k].device {
          assert r.items[k] == r.items[..|st.items|][k];
        }
      }
  }

  /** A capability change keeps the rows of an availability change: no row is
      removed or moved, and only a new device the conference lists is
      appended. The full refresh that may follow changes no device. */
  lemma CapabilityStepKeepsRows(st: State, d: DeviceId, hasCall: bool, sdk: Sdk)
    ensures var r := CapabilityStep(st, d, hasCall, sdk);
            |st.items| <= |r.items| <= |st.items| + 1
            && (forall k :: 0 <= k < |st.items| ==> r.items[k].device == st.items[k].device)
            && (|r.items| == |st.items| + 1 <==> !Present(st.items, d) && d in sdk.conferenceDevices)
            && (|r.items| == |st.items| + 1 ==> r.items[|st.items|].device == d)
  {
    var first := AvailabilityStep(st, d, hasCall, sdk);
    AvailabilityStepKeepsRows(st, d, hasCall, sdk);
    RefreshAllKeepsRows(first, hasCall, sdk);
  }

  /** Left then joined on a present device leaves it unpaused, everything else as before. */
  lemma LeftThenJoined(st: State, d: DeviceId, hasCall: bool, sdk: Sdk)
    requires Present(st.items, d)
    ensures var r := JoinedStep(SetPausedStep(st, d, true), d, hasCall, sdk);
            var i := IndexOf(st.items, d).value;
            r.items == st.items[i := st.items[i].(paused := false)] && r.events == st.events
  {
    var left := SetPausedStep(st, d, true);
    SetPausedStepEffect(st, d, true);
    FirstMatchIsIndexOf(left.items, d, IndexOf(st.items, d).value);
    SetPausedStepEffect(left, d, false);
  }

  // ---------------------------------------------------------------------------

  class ParticipantDeviceListModel {
    /** The rows of the underlying ProxyAbstractListModel (mList). */
    const rows: ProxyList.ListModel<Entry>
    /** mCallModel != null */
    const hasCall: bool
    /** The signals emitted by the list and its entries, oldest first. */
    ghost var signals: seq<ListSignal>

    ghost function Snapshot(): State
      reads this, rows
    {
      State(rows.items, rows.events, signals)
    }

    /** Construction from a participant: no call model, so no entry is "me". */
    constructor FromParticipant(devices: seq<DeviceId>, sdk: Sdk)
      ensures !hasCall && fresh(rows)
      ensures Snapshot() == State(EntriesFor(devices, false, sdk), [], [])
    {
      hasCall := false;
      rows := new ProxyList.ListModel<Entry>();
      signals := [];
      new;
      AppendEntries(devices, sdk);
    }

    /** Construction from a call: a conference call lists the conference's
        devices; any other call leaves the list empty and no call model set. */
    constructor FromCall(isConferenceCall: bool, sdk: Sdk)
      ensures hasCall == isConferenceCall && fresh(rows)
      ensures Snapshot() == State(if isConferenceCall then EntriesFor(sdk.conferenceDevices, true, sdk) else [], [], [])
    {
      hasCall := isConferenceCall;
      rows := new ProxyList.ListModel<Entry>();
      signals := [];
      new;
      if isConferenceCall {
        AppendEntries(sdk.conferenceDevices, sdk);
      }
    }

    /** ParticipantDeviceModel::create for `d`: a model built with the list's
        call and isMe(d), recorded as an entry. */
    method CreateEntry(d: DeviceId, sdk: Sdk) returns (e: Entry)
      ensures e == NewEntry(d, hasCall, sdk)
    {
      var me := IsMe(d, sdk);
      var model := new ParticipantDeviceModel(hasCall, Some(d), me, sdk.facts(d), sdk.callState);
      e := Entry(d, me, model.isPaused, model.isSpeaking, model.isVideoEnabled);
    }

    /** `mList << deviceModel` for each device, with no notification of its own. */
    method AppendEntries(devices: seq<DeviceId>, sdk: Sdk)
      modifies rows
      ensures rows.items == old(rows.items) + EntriesFor(devices, hasCall, sdk)
      ensures rows.events == old(rows.events)
    {
      var i := 0;
      while i < |devices|
        invariant 0 <= i <= |devices|
        invariant rows.items == old(rows.items) + EntriesFor(devices[..i], hasCall, sdk)
        invariant rows.events == old(rows.events)
      {
        var e := CreateEntry(devices[i], sdk);
        assert EntriesFor(devices[..i + 1], hasCall, sdk) == EntriesFor(devices[..i], hasCall, sdk) + [e];
        rows.items := rows.items + [e];
        i := i + 1;
      }
      assert devices[..i] == devices;
    }

    /** isMe: scan the local user's devices for the device's address. */
    method IsMe(d: DeviceId, sdk: Sdk) returns (me: bool)
      ensures me == IsMeIn(hasCall, d, sdk)
    {
      if hasCall {
        var address := sdk.facts(d).address;
        var j := 0;
        while j < |sdk.me|
          invariant 0 <= j <= |sdk.me|
          invariant forall k :: 0 <= k < j ==> sdk.facts(sdk.me[k]).address != address
        {
          if address == sdk.facts(sdk.me[j]).address {
            return true;
          }
          j := j + 1;
        }
      }
      return false;
    }

    /** isMeAlone: true exactly when every entry is the local user's (so for
        an empty list). */
    method IsMeAlone(sdk: Sdk) returns (alone: bool)
      ensures alone <==> AllMe(hasCall, rows.items, sdk)
    {
      var i := 0;
      while i < |rows.items|
        invariant 0 <= i <= |rows.items|
        invariant forall k :: 0 <= k < i ==> IsMeIn(hasCall, rows.items[k].device, sdk)
      {
        var me := IsMe(rows.items[i].device, sdk);
        if !me {
          return false;
        }
        i := i + 1;
      }
      return true;
    }

    /** get(d, &index): the first entry for d and its row; on a miss no entry
        and `index` is left as it was. */
    method Get(d: DeviceId, index: int) returns (entry: Option<Entry>, row: int)
      ensures entry.None? <==> !Present(rows.items, d)
      ensures entry.Some? ==> 0 <= row < |rows.items| && entry.value == rows.items[row] && entry.value.device == d
      ensures entry.Some? ==> forall k :: 0 <= k < row ==> rows.items[k].device != d
      ensures entry.None? ==> row == index
    {
      var i := 0;
      while i < |rows.items|
        invariant 0 <= i <= |rows.items|
        invariant forall k :: 0 <= k < i ==> rows.items[k].device != d
      {
        if rows.items[i].device == d {
          return Some(rows.items[i]), i;
        }
        i := i + 1;
      }
      return None, index;
    }

    /** deviceModel->updateVideoEnabled() on the entry at `row`. */
    method RefreshEntry(row: int, sdk: Sdk)
      requires 0 <= row < |rows.items|
      modifies rows, this
      ensures Snapshot() == RefreshAt(old(Snapshot()), row, hasCall, sdk)
    {
      var e := rows.items[row];
      var refreshed := RefreshVideo(e, hasCall, sdk);
      rows.items := rows.items[row := refreshed];
      signals := signals + Relay(e.device, ChangeSignal(e.videoEnabled, refreshed.videoEnabled, VideoEnabledChanged));
    }

    /** device->setPaused(paused) on the entry at `row`. */
    method SetEntryPaused(row: int, paused: bool)
      requires 0 <= row < |rows.items|
      modifies rows, this
      ensures Snapshot() == SetPausedAt(old(Snapshot()), row, paused)
    {
      var e := rows.items[row];
      rows.items := rows.items[row := e.(paused := paused)];
      signals := signals + Relay(e.device, ChangeSignal(e.paused, paused, IsPausedChanged));
    }

    /** updateDevices(participant): replace the rows, under one reset, by one
        fresh entry per device of the participant, in its order. */
    method UpdateDevices(devices: seq<DeviceId>, sdk: Sdk)
      modifies rows
      ensures Snapshot() == State(EntriesFor(devices, hasCall, sdk), old(rows.events) + [ProxyList.Reset], signals)
    {
      rows.events := rows.events + [ProxyList.Reset];
      rows.items := [];
      AppendEntries(devices, sdk);
    }

    /** updateDevices(devices, isMe): an empty body. */
    method UpdateDevicesFor(devices: seq<DeviceId>, isMe: bool)
      ensures Snapshot() == old(Snapshot())
    {
    }

    /** add(d): refuses a device that already has an entry (refreshing its
        video instead); otherwise appends a fresh entry for it. */
    method Add(d: DeviceId, sdk: Sdk) returns (added: bool)
      modifies rows, this
      ensures added <==> !Present(old(rows.items), d)
      ensures Snapshot() == AddStep(old(Snapshot()), d, hasCall, sdk)
    {
      var entry, row := Get(d, -1);
      if entry.Some? {
        FirstMatchIsIndexOf(rows.items, d, row);
        RefreshEntry(row, sdk);
        return false;
      }
      var e := CreateEntry(d, sdk);
      rows.Add(e);
      return true;
    }

    /** remove(d): the first entry for d has its video refreshed and is removed. */
    method Remove(d: DeviceId, sdk: Sdk) returns (removed: bool)
      modifies rows, this
      ensures removed <==> Present(old(rows.items), d)
      ensures Snapshot() == RemoveStep(old(Snapshot()), d, hasCall, sdk)
    {
      var entry, row := Get(d, -1);
      if entry.None? {
        return false;
      }
      FirstMatchIsIndexOf(rows.items, d, row);
      RefreshEntry(row, sdk);
      var ok := rows.RemoveRow(row);
      return true;
    }

    /** onSecurityLevelChanged: relay the changed address to the entries. */
    method OnSecurityLevelChanged(address: Option<Address>)
      modifies this
      ensures signals == old(signals) + [SecurityLevelRelayed(address)]
    {
      signals := signals + [SecurityLevelRelayed(address)];
    }

    /** onParticipantAdded: add each device of the participant; a participant
        without devices only draws a warning. */
    method OnParticipantAdded(devices: seq<DeviceId>, sdk: Sdk)
      modifies rows, this
      ensures Snapshot() == AddAll(old(Snapshot()), devices, hasCall, sdk)
    {
      if |devices| == 0 {
        return;
      }
      var i := 0;
      while i < |devices|
        invariant 0 <= i <= |devices|
        invariant Snapshot() == AddAll(old(Snapshot()), devices[..i], hasCall, sdk)
      {
        assert devices[..i + 1][..i] == devices[..i];
        var _ := Add(devices[i], sdk);
        i := i + 1;
      }
      assert devices[..i] == devices;
    }

    /** onParticipantRemoved: remove each device of the participant. */
    method OnParticipantRemoved(devices: seq<DeviceId>, sdk: Sdk)
      modifies rows, this
      ensures Snapshot() == RemoveAll(old(Snapshot()), devices, hasCall, sdk)
    {
      var i := 0;
      while i < |devices|
        invariant 0 <= i <= |devices|
        invariant Snapshot() == RemoveAll(old(Snapshot()), devices[..i], hasCall, sdk)
      {
        assert devices[..i + 1][..i] == devices[..i];
        var _ := Remove(devices[i], sdk);
        i := i + 1;
      }
      assert devices[..i] == devices;
    }

    /** onParticipantDeviceAdded: add the device only if the conference lists
        it. The call model is dereferenced unchecked. */
    method OnParticipantDeviceAdded(d: DeviceId, sdk: Sdk)
      requires hasCall
      modifies rows, this
      ensures Snapshot() == DeviceAddedStep(old(Snapshot()), d, hasCall, sdk)
    {
      var devices := sdk.conferenceDevices;
      var i := 0;
      while i < |devices|
        invariant 0 <= i <= |devices|
        invariant d !in devices[..i]
        invariant Snapshot() == old(Snapshot())
      {
        if devices[i] == d {
          var _ := Add(devices[i], sdk);
          return;
        }
        i := i + 1;
      }
      assert devices[..i] == devices;
    }

    /** onParticipantDeviceRemoved */
    method OnParticipantDeviceRemoved(d: DeviceId, sdk: Sdk)
      modifies rows, this
      ensures Snapshot() == RemoveStep(old(Snapshot()), d, hasCall, sdk)
    {
      var _ := Remove(d, sdk);
    }

    /** onParticipantDeviceJoined: unpause the device's entry, or treat the
        device as added when it has none. */
    method OnParticipantDeviceJoined(d: DeviceId, sdk: Sdk)
      requires hasCall || Present(rows.items, d)
      modifies rows, this
      ensures Snapshot() == JoinedStep(old(Snapshot()), d, hasCall, sdk)
    {
      var entry, row := Get(d, -1);
      if entry.Some? {
        FirstMatchIsIndexOf(rows.items, d, row);
        SetEntryPaused(row, false);
        return;
      }
      OnParticipantDeviceAdded(d, sdk);
    }

    /** onParticipantDeviceLeft: pause the device's entry; nothing when it has none. */
    method OnParticipantDeviceLeft(d: DeviceId)
      modifies rows, this
      ensures Snapshot() == SetPausedStep(old(Snapshot()), d, true)
    {
      var entry, row := Get(d, -1);
      if entry.Some? {
        FirstMatchIsIndexOf(rows.items, d, row);
        SetEntryPaused(row, true);
      }
    }

    /** onConferenceStateChanged: on Created it calls the empty
        updateDevices(devices, isMe) twice, so the list never changes. */
    method OnConferenceStateChanged(newState: ConferenceState, isConference: bool, sdk: Sdk)
      ensures Snapshot() == old(Snapshot())
    {
      if newState == Created {
        if hasCall && isConference {
          UpdateDevicesFor(sdk.me, true);
          UpdateDevicesFor(sdk.conferenceDevices, false);
        }
      }
    }

    /** onParticipantDeviceMediaCapabilityChanged */
    method OnParticipantDeviceMediaCapabilityChanged(d: DeviceId, sdk: Sdk)
      requires hasCall || Present(rows.items, d)
      modifies rows, this
      ensures Snapshot() == CapabilityStep(old(Snapshot()), d, hasCall, sdk)
    {
      var entry, row := Get(d, -1);
      if entry.Some? {
        FirstMatchIsIndexOf(rows.items, d, row);
        RefreshEntry(row, sdk);
      } else {
        OnParticipantDeviceAdded(d, sdk);
      }
      assert Snapshot() == AvailabilityStep(old(Snapshot()), d, hasCall, sdk);
      entry, row := Get(d, -1);
      if entry.Some? {
        FirstMatchIsIndexOf(rows.items, d, row);
        if entry.value.isMe {
          RefreshAllEntries(sdk);
        }
      }
    }

    /** updateVideoEnabled on every entry, in row order. */
    method RefreshAllEntries(sdk: Sdk)
      modifies rows, this
      ensures Snapshot() == RefreshPrefix(old(Snapshot()), |old(rows.items)|, hasCall, sdk)
    {
      var i := 0;
      while i < |rows.items|
        invariant 0 <= i <= |old(rows.items)|
        invariant Snapshot() == RefreshPrefix(old(Snapshot()), i, hasCall, sdk)
      {
        RefreshEntry(i, sdk);
        i := i + 1;
      }
    }

    /** onParticipantDeviceMediaAvailabilityChanged */
    method OnParticipantDeviceMediaAvailabilityChanged(d: DeviceId, sdk: Sdk)
      requires hasCall || Present(rows.items, d)
      modifies rows, this
      ensures Snapshot() == AvailabilityStep(old(Snapshot()), d, hasCall, sdk)
    {
      var entry, row := Get(d, -1);
      if entry.Some? {
        FirstMatchIsIndexOf(rows.items, d, row);
        RefreshEntry(row, sdk);
      } else {
        OnParticipantDeviceAdded(d, sdk);
      }
    }

    /** onParticipantDeviceIsSpeakingChanged: announce a known device that starts speaking. */
    method OnParticipantDeviceIsSpeakingChanged(d: DeviceId, speaking: bool)
      modifies this
      ensures Snapshot() == SpeakingStep(old(Snapshot()), d, speaking)
    {
      if speaking {
        var entry, row := Get(d, -1);
        if entry.Some? {
          signals := signals + [ParticipantSpeaking(d)];
        }
      }
    }
  }
}
