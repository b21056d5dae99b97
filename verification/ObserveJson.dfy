/**
 Validation of a replay snapshot and its rendering into a caller's buffer
 (agent/avrcp_absolute_volume_observe_json.cpp).
 */
module ObserveJson {
  import opened Words
  import opened AbsoluteVolume
  import opened VolumeGating
  import opened ObserveLog
  import opened DecimalText

  const MAXIMUM_JSON_BYTES := 4096

  datatype JsonStatus =
    | Succeeded | InvalidJsonArgument | InvalidJsonEnum | JsonOutOfRange | InvalidSnapshot | BufferTooSmall
    | InternalOverflow

  // --------------------------------------------------------------- names

  function SupportName(value: Support): Option<string> {
    match value
    case Unknown => Some("unknown")
    case Unsupported => Some("unsupported")
    case Supported => Some("supported")
    case UnlistedSupport(_) => None
  }

  function EventName(value: HeadsetEvent): Option<string> {
    match value
    case CommandResponse => Some("command_response")
    case RemoteNotification => Some("remote_notification")
    case UnlistedEvent(_) => None
  }

  function ModeName(value: GateMode): Option<string> {
    match value
    case ObserveOnly => Some("observe_only")
    case Synchronize => Some("synchronize")
    case UnlistedMode(_) => None
  }

  predicate Named(s: ReplaySnapshot) {
    SupportName(s.support).Some? && EventName(s.headsetEvent).Some? && ModeName(s.requestedMode).Some? &&
    ModeName(s.enforcedReplayMode).Some?
  }

  // ---------------------------------------------------------- validation

  function SnapshotStatus(s: ReplaySnapshot): JsonStatus {
    var n := s.counts;
    if !Named(s) then InvalidJsonEnum
    else if s.schemaVersion != SNAPSHOT_SCHEMA || s.replayedEventCount > LOG_CAPACITY ||
            n.generationsStarted > s.replayedEventCount || n.generationsEnded > s.replayedEventCount ||
            n.capabilities > s.replayedEventCount || n.windowsCallbacks > s.replayedEventCount ||
            n.commandResponses > s.replayedEventCount || n.remoteNotifications > s.replayedEventCount ||
            n.leasesAcquired > s.replayedEventCount || n.leasesRevoked > s.replayedEventCount ||
            n.modeChanges > s.replayedEventCount || s.windowsVolume.percent > 100 || s.headsetVolume > 127
    then JsonOutOfRange
    else if n.Sum() != s.replayedEventCount || s.lastSequence != s.replayedEventCount ||
            n.generationsEnded > n.generationsStarted ||
            (s.replayedEventCount != 0 && n.generationsStarted == 0) ||
            (n.generationsStarted == 0 && s.currentGeneration != 0) ||
            (n.generationsStarted != 0 && s.currentGeneration == 0) ||
            (s.generationCurrent && s.currentGeneration == 0) ||
            (s.generationCurrent && n.generationsStarted <= n.generationsEnded) ||
            (!s.generationCurrent && n.generationsStarted != 0 && n.generationsEnded == 0) ||
            (s.support != Unknown && n.capabilities == 0) ||
            (s.windowsVolumeObserved && n.windowsCallbacks == 0) ||
            (s.headsetVolumeObserved && n.commandResponses == 0 && n.remoteNotifications == 0) ||
            n.leasesRevoked > n.leasesAcquired ||
            (s.ownerLease != 0 && n.leasesAcquired <= n.leasesRevoked) ||
            (s.requestedMode == Synchronize && n.modeChanges == 0) ||
            (!s.generationCurrent && s.ownerLease != 0) ||
            (!s.generationCurrent && s.requestedMode != ObserveOnly) ||
            s.enforcedReplayMode != ObserveOnly || s.emittedActionCount != 0
    then InvalidSnapshot
    else Succeeded
  }

  lemma BalancedSnapshotsAreValid(s: ReplaySnapshot, c: Cursor, count: nat)
    requires Balanced(s, c, count) && count <= LOG_CAPACITY
    ensures SnapshotStatus(s) == Succeeded
  {
  }

  /** The validator accepts exactly the snapshots whose counters balance for what they show, within capacity. */
  lemma ValidatorAcceptsExactly(s: ReplaySnapshot)
    ensures SnapshotStatus(s) == Succeeded <==>
            && s.replayedEventCount <= LOG_CAPACITY
            && Balanced(s, Cursor(s.currentGeneration, s.generationCurrent, s.ownerLease), s.replayedEventCount)
  {
    if s.replayedEventCount <= LOG_CAPACITY &&
       Balanced(s, Cursor(s.currentGeneration, s.generationCurrent, s.ownerLease), s.replayedEventCount) {
      var cursor := Cursor(s.currentGeneration, s.generationCurrent, s.ownerLease);
      BalancedSnapshotsAreValid(s, cursor, s.replayedEventCount);
    }
  }

  /** An enumerator without a name is reported before anything else is looked at. */
  lemma UnnamedIsReportedFirst(s: ReplaySnapshot)
    ensures SnapshotStatus(s) == InvalidJsonEnum <==>
            || s.support.UnlistedSupport? || s.headsetEvent.UnlistedEvent?
            || s.requestedMode.UnlistedMode? || s.enforcedReplayMode.UnlistedMode?
  {
  }

  lemma ConsistentLogsReplayToValidSnapshots(log: LogState)
    requires Consistent(log)
    ensures Replayed(log).0 == Accepted && Replayed(log).1.Some?
    ensures SnapshotStatus(Replayed(log).1.value) == Succeeded
  {
    ReplayAcceptsConsistentLogs(log);
    var snapshot := Replayed(log).1.value;
    assert Balanced(snapshot, log.cursor, |log.events|);
    BalancedSnapshotsAreValid(snapshot, log.cursor, |log.events|);
  }

  /** Whatever was offered to the recorder, the log it built replays to a snapshot that is valid. */
  lemma RecordedLogsReplayToValidSnapshots(events: seq<LogEvent>)
    ensures Replayed(RecordAll(EMPTY_LOG, events)).0 == Accepted
    ensures Replayed(RecordAll(EMPTY_LOG, events)).1.Some?
    ensures SnapshotStatus(Replayed(RecordAll(EMPTY_LOG, events)).1.value) == Succeeded
  {
    RecordedLogsAreConsistent(EMPTY_LOG, events);
    ConsistentLogsReplayToValidSnapshots(RecordAll(EMPTY_LOG, events));
  }

  // ------------------------------------------------------------ the text

  type Field = (string, string)

  function BooleanText(value: bool): string {
    if value then "true" else "false"
  }

  function Quoted(name: Option<string>): string {
    "\"" + (if name.Some? then name.value else "") + "\""
  }

  function Lead(key: string, first: bool): string {
    (if first then "" else ",") + "\"" + key + "\""
  }

  function FieldText(field: Field, first: bool): string {
    Lead(field.0, first) + ":" + field.1
  }

  function Entries(fields: seq<Field>): string {
    if fields == [] then ""
    else Entries(fields[..|fields| - 1]) + FieldText(fields[|fields| - 1], |fields| == 1)
  }

  function SequenceFields(s: ReplaySnapshot): seq<Field> {
    [("schema_version", Decimal(s.schemaVersion)),
     ("replayed_event_count", Decimal(s.replayedEventCount)),
     ("last_sequence", Decimal(s.lastSequence)),
     ("generations_started", Decimal(s.counts.generationsStarted)),
     ("generations_ended", Decimal(s.counts.generationsEnded))]
  }

  function GenerationFields(s: ReplaySnapshot): seq<Field> {
    [("current_generation", Decimal(s.currentGeneration)),
     ("generation_current", BooleanText(s.generationCurrent)),
     ("support", Quoted(SupportName(s.support))),
     ("capability_event_count", Decimal(s.counts.capabilities)),
     ("windows_volume_observed", BooleanText(s.windowsVolumeObserved))]
  }

  function EndpointFields(s: ReplaySnapshot): seq<Field> {
    [("windows_volume_percent", Decimal(s.windowsVolume.percent)),
     ("windows_volume_muted", BooleanText(s.windowsVolume.muted)),
     ("windows_callback_count", Decimal(s.counts.windowsCallbacks)),
     ("xm5_volume_observed", BooleanText(s.headsetVolumeObserved)),
     ("xm5_absolute_volume", Decimal(s.headsetVolume))]
  }

  function HeadsetFields(s: ReplaySnapshot): seq<Field> {
    [("xm5_event", Quoted(EventName(s.headsetEvent))),
     ("xm5_command_response_count", Decimal(s.counts.commandResponses)),
     ("xm5_remote_notification_count", Decimal(s.counts.remoteNotifications)),
     ("owner_lease", Decimal(s.ownerLease)),
     ("lease_acquire_count", Decimal(s.counts.leasesAcquired))]
  }

  function ModeFields(s: ReplaySnapshot): seq<Field> {
    [("lease_revoke_count", Decimal(s.counts.leasesRevoked)),
     ("requested_mode", Quoted(ModeName(s.requestedMode))),
     ("mode_change_count", Decimal(s.counts.modeChanges)),
     ("enforced_replay_mode", Quoted(ModeName(s.enforcedReplayMode))),
     ("emitted_action_count", Decimal(s.emittedActionCount))]
  }

  function Fields(s: ReplaySnapshot): seq<Field> {
    SequenceFields(s) + GenerationFields(s) + EndpointFields(s) + HeadsetFields(s) + ModeFields(s)
  }

  function JsonText(s: ReplaySnapshot): string {
    "{" + Entries(Fields(s)) + "}"
  }

  // ---------------------------------------- the text always fits and is plain

  ghost predicate Clean(value: string) {
    forall i :: 0 <= i < |value| ==> value[i] != ':' && value[i] != ',' && value[i] != '}'
  }

  ghost predicate QuoteFree(key: string) {
    forall i :: 0 <= i < |key| ==> key[i] != '"'
  }

  ghost predicate PlainValue(value: string) {
    |value| <= 22 && Clean(value)
  }

  ghost predicate Plain(field: Field) {
    |field.0| <= 30 && QuoteFree(field.0) && PlainValue(field.1)
  }

  /** The same keys on both sides, and nothing but plain fields. */
  ghost predicate Match(a: seq<Field>, b: seq<Field>, length: nat) {
    |a| == |b| == length && forall i :: 0 <= i < length ==> a[i].0 == b[i].0 && Plain(a[i]) && Plain(b[i])
  }

  lemma NoEntries()
    ensures Entries([]) == ""
  {
  }

  lemma {:induction false} EntriesFit(fields: seq<Field>)
    requires forall i :: 0 <= i < |fields| ==> Plain(fields[i])
    ensures |Entries(fields)| <= 60 * |fields|
  {
    if fields != [] {
      assert Plain(fields[|fields| - 1]);
      EntriesFit(fields[..|fields| - 1]);
    }
  }

  lemma DecimalsArePlain()
    ensures forall value: uint64 :: PlainValue(Decimal(value))
  {
    forall value: uint64
      ensures PlainValue(Decimal(value))
    {
      WordsFitTwentyDigits(value);
      DecimalDenotes(value);
    }
  }

  lemma NamesArePlain(s: ReplaySnapshot)
    ensures PlainValue(Quoted(SupportName(s.support))) && PlainValue(Quoted(EventName(s.headsetEvent)))
    ensures PlainValue(Quoted(ModeName(s.requestedMode))) && PlainValue(Quoted(ModeName(s.enforcedReplayMode)))
  {
    assert Clean("unknown") && Clean("unsupported") && Clean("supported");
    assert Clean("command_response") && Clean("remote_notification");
    assert Clean("observe_only") && Clean("synchronize");
    QuotingIsPlain(SupportName(s.support));
    QuotingIsPlain(EventName(s.headsetEvent));
    QuotingIsPlain(ModeName(s.requestedMode));
    QuotingIsPlain(ModeName(s.enforcedReplayMode));
    hide Quoted, Clean;
  }

  lemma QuotingIsPlain(name: Option<string>)
    requires name.Some? ==> Clean(name.value) && |name.value| <= 20
    ensures PlainValue(Quoted(name))
  {
  }

  lemma BooleansArePlain()
    ensures PlainValue(BooleanText(true)) && PlainValue(BooleanText(false))
  {
    assert Clean("true") && Clean("false");
  }

  lemma SequenceKeys()
    ensures QuoteFree("schema_version")
    ensures QuoteFree("replayed_event_count")
    ensures QuoteFree("last_sequence")
    ensures QuoteFree("generations_started")
    ensures QuoteFree("generations_ended")
  {
  }

  lemma GenerationKeys()
    ensures QuoteFree("current_generation")
    ensures QuoteFree("generation_current")
    ensures QuoteFree("support")
    ensures QuoteFree("capability_event_count")
    ensures QuoteFree("windows_volume_observed")
  {
  }

  lemma EndpointKeys()
    ensures QuoteFree("windows_volume_percent")
    ensures QuoteFree("windows_volume_muted")
    ensures QuoteFree("windows_callback_count")
    ensures QuoteFree("xm5_volume_observed")
    ensures QuoteFree("xm5_absolute_volume")
  {
  }

  lemma HeadsetKeys()
    ensures QuoteFree("xm5_event")
    ensures QuoteFree("xm5_command_response_count")
    ensures QuoteFree("xm5_remote_notification_count")
    ensures QuoteFree("owner_lease")
    ensures QuoteFree("lease_acquire_count")
  {
  }

  lemma ModeKeys()
    ensures QuoteFree("lease_revoke_count")
    ensures QuoteFree("requested_mode")
    ensures QuoteFree("mode_change_count")
    ensures QuoteFree("enforced_replay_mode")
    ensures QuoteFree("emitted_action_count")
  {
  }

  lemma SequenceFieldsMatch(a: ReplaySnapshot, b: ReplaySnapshot)
    ensures Match(SequenceFields(a), SequenceFields(b), 5)
  {
    hide Decimal, Quoted, BooleanText, QuoteFree, Clean;
    SequenceKeys();
    DecimalsArePlain();
    NamesArePlain(a);
    NamesArePlain(b);
    BooleansArePlain();
  }

  lemma GenerationFieldsMatch(a: ReplaySnapshot, b: ReplaySnapshot)
    ensures Match(GenerationFields(a), GenerationFields(b), 5)
  {
    hide Decimal, Quoted, BooleanText, QuoteFree, Clean;
    GenerationKeys();
    DecimalsArePlain();
    NamesArePlain(a);
    NamesArePlain(b);
    BooleansArePlain();
  }

  lemma EndpointFieldsMatch(a: ReplaySnapshot, b: ReplaySnapshot)
    ensures Match(EndpointFields(a), EndpointFields(b), 5)
  {
    hide Decimal, Quoted, BooleanText, QuoteFree, Clean;
    EndpointKeys();
    DecimalsArePlain();
    NamesArePlain(a);
    NamesArePlain(b);
    BooleansArePlain();
  }

  lemma HeadsetFieldsMatch(a: ReplaySnapshot, b: ReplaySnapshot)
    ensures Match(HeadsetFields(a), HeadsetFields(b), 5)
  {
    hide Decimal, Quoted, BooleanText, QuoteFree, Clean;
    HeadsetKeys();
    DecimalsArePlain();
    NamesArePlain(a);
    NamesArePlain(b);
    BooleansArePlain();
  }

  lemma ModeFieldsMatch(a: ReplaySnapshot, b: ReplaySnapshot)
    ensures Match(ModeFields(a), ModeFields(b), 5)
  {
    hide Decimal, Quoted, BooleanText, QuoteFree, Clean;
    ModeKeys();
    DecimalsArePlain();
    NamesArePlain(a);
    NamesArePlain(b);
    BooleansArePlain();
  }

  lemma FieldsMatch(a: ReplaySnapshot, b: ReplaySnapshot)
    ensures Match(Fields(a), Fields(b), 25)
  {
    hide SequenceFields, GenerationFields, EndpointFields, HeadsetFields, ModeFields;
    SequenceFieldsMatch(a, b);
    GenerationFieldsMatch(a, b);
    EndpointFieldsMatch(a, b);
    HeadsetFieldsMatch(a, b);
    ModeFieldsMatch(a, b);
  }

  /** For every snapshot, valid or not, the text is far shorter than the staging buffer. */
  lemma TextFits(s: ReplaySnapshot)
    ensures |JsonText(s)| <= 1502 < MAXIMUM_JSON_BYTES
  {
    hide Fields;
    FieldsMatch(s, s);
    EntriesFit(Fields(s));
  }

  // ---------------------------------------- the text determines the snapshot

  lemma LastColon(left: string, value: string)
    requires Clean(value)
    ensures var text := left + ":" + value;
            text[|left|] == ':' && forall i :: |left| < i < |text| ==> text[i] != ':'
  {
    var text := left + ":" + value;
    assert text[|left| + 1..] == value;
  }

  lemma CancelValue(left: string, a: string, right: string, b: string)
    requires Clean(a) && Clean(b) && left + ":" + a == right + ":" + b
    ensures a == b && left == right
  {
    LastColon(left, a);
    LastColon(right, b);
    var text := left + ":" + a;
    assert text[..|left|] == left && text[|left| + 1..] == a;
    assert text[..|right|] == right && text[|right| + 1..] == b;
  }

  lemma EntriesEndInValue(fields: seq<Field>)
    requires fields != []
    ensures var last := |fields| - 1;
            Entries(fields) == Entries(fields[..last]) + Lead(fields[last].0, last == 0) + ":" + fields[last].1
  {
    hide Lead;
    var last := |fields| - 1;
    Regroup(Entries(fields[..last]), Lead(fields[last].0, last == 0), ":", fields[last].1);
  }

  lemma Regroup(a: string, b: string, c: string, d: string)
    ensures a + (b + c + d) == a + b + c + d
  {
  }

  lemma {:induction false} EntriesDetermineValues(a: seq<Field>, b: seq<Field>)
    requires Entries(a) == Entries(b) && Match(a, b, |a|)
    ensures a == b
  {
    if a != [] {
      hide Entries, Lead;
      var last := |a| - 1;
      EntriesEndInValue(a);
      EntriesEndInValue(b);
      var lead := Lead(a[last].0, last == 0);
      var left, right := Entries(a[..last]) + lead, Entries(b[..last]) + lead;
      CancelValue(left, a[last].1, right, b[last].1);
      assert left[..|left| - |lead|] == Entries(a[..last]) && right[..|right| - |lead|] == Entries(b[..last]);
      EntriesDetermineValues(a[..last], b[..last]);
      assert a == a[..last] + [a[last]] && b == b[..last] + [b[last]];
    }
  }

  lemma DecimalDetermines(a: nat, b: nat)
    ensures Decimal(a) == Decimal(b) ==> a == b
  {
    DecimalDenotes(a);
    DecimalDenotes(b);
  }

  lemma NamesDetermine(a: ReplaySnapshot, b: ReplaySnapshot)
    requires Named(a) && Named(b)
    ensures Quoted(SupportName(a.support)) == Quoted(SupportName(b.support)) ==> a.support == b.support
    ensures Quoted(EventName(a.headsetEvent)) == Quoted(EventName(b.headsetEvent)) ==>
              a.headsetEvent == b.headsetEvent
    ensures Quoted(ModeName(a.requestedMode)) == Quoted(ModeName(b.requestedMode)) ==>
              a.requestedMode == b.requestedMode
  {
    assert |"unknown"| == 7 && |"unsupported"| == 11 && |"supported"| == 9;
    assert |"command_response"| == 16 && |"remote_notification"| == 19;
    assert |"observe_only"| == 12 && |"synchronize"| == 11;
  }

  lemma FieldsAgree(a: ReplaySnapshot, b: ReplaySnapshot)
    requires Entries(Fields(a)) == Entries(Fields(b))
    ensures SequenceFields(a) == SequenceFields(b)
    ensures GenerationFields(a) == GenerationFields(b)
    ensures EndpointFields(a) == EndpointFields(b)
    ensures HeadsetFields(a) == HeadsetFields(b)
    ensures ModeFields(a) == ModeFields(b)
  {
    hide SequenceFields, GenerationFields, EndpointFields, HeadsetFields, ModeFields;
    hide Entries;
    SequenceFieldsMatch(a, b);
    GenerationFieldsMatch(a, b);
    EndpointFieldsMatch(a, b);
    HeadsetFieldsMatch(a, b);
    ModeFieldsMatch(a, b);
    FieldsMatch(a, b);
    EntriesDetermineValues(Fields(a), Fields(b));
    assert SequenceFields(a) == Fields(a)[0..5] == Fields(b)[0..5] == SequenceFields(b);
    assert GenerationFields(a) == Fields(a)[5..10] == Fields(b)[5..10] == GenerationFields(b);
    assert EndpointFields(a) == Fields(a)[10..15] == Fields(b)[10..15] == EndpointFields(b);
    assert HeadsetFields(a) == Fields(a)[15..20] == Fields(b)[15..20] == HeadsetFields(b);
    assert ModeFields(a) == Fields(a)[20..25] == Fields(b)[20..25] == ModeFields(b);
  }

  lemma SequenceFieldsDetermine(a: ReplaySnapshot, b: ReplaySnapshot)
    requires SequenceFields(a) == SequenceFields(b)
    ensures a.schemaVersion == b.schemaVersion
    ensures a.replayedEventCount == b.replayedEventCount
    ensures a.lastSequence == b.lastSequence
    ensures a.counts.generationsStarted == b.counts.generationsStarted
    ensures a.counts.generationsEnded == b.counts.generationsEnded
  {
    var x, y := SequenceFields(a), SequenceFields(b);
    DecimalDetermines(a.schemaVersion, b.schemaVersion);
    DecimalDetermines(a.replayedEventCount, b.replayedEventCount);
    DecimalDetermines(a.lastSequence, b.lastSequence);
    DecimalDetermines(a.counts.generationsStarted, b.counts.generationsStarted);
    DecimalDetermines(a.counts.generationsEnded, b.counts.generationsEnded);
    assert x[0] == y[0] && x[1] == y[1] && x[2] == y[2] && x[3] == y[3] && x[4] == y[4];
  }

  lemma GenerationFieldsDetermine(a: ReplaySnapshot, b: ReplaySnapshot)
    requires GenerationFields(a) == GenerationFields(b)
    ensures a.currentGeneration == b.currentGeneration
    ensures a.generationCurrent == b.generationCurrent
    ensures Quoted(SupportName(a.support)) == Quoted(SupportName(b.support))
    ensures a.counts.capabilities == b.counts.capabilities
    ensures a.windowsVolumeObserved == b.windowsVolumeObserved
  {
    var x, y := GenerationFields(a), GenerationFields(b);
    DecimalDetermines(a.currentGeneration, b.currentGeneration);
    DecimalDetermines(a.counts.capabilities, b.counts.capabilities);
    assert x[0] == y[0] && x[1] == y[1] && x[2] == y[2] && x[3] == y[3] && x[4] == y[4];
  }

  lemma EndpointFieldsDetermine(a: ReplaySnapshot, b: ReplaySnapshot)
    requires EndpointFields(a) == EndpointFields(b)
    ensures a.windowsVolume.percent == b.windowsVolume.percent
    ensures a.windowsVolume.muted == b.windowsVolume.muted
    ensures a.counts.windowsCallbacks == b.counts.windowsCallbacks
    ensures a.headsetVolumeObserved == b.headsetVolumeObserved
    ensures a.headsetVolume == b.headsetVolume
  {
    var x, y := EndpointFields(a), EndpointFields(b);
    DecimalDetermines(a.windowsVolume.percent, b.windowsVolume.percent);
    DecimalDetermines(a.counts.windowsCallbacks, b.counts.windowsCallbacks);
    DecimalDetermines(a.headsetVolume, b.headsetVolume);
    assert x[0] == y[0] && x[1] == y[1] && x[2] == y[2] && x[3] == y[3] && x[4] == y[4];
  }

  lemma HeadsetFieldsDetermine(a: ReplaySnapshot, b: ReplaySnapshot)
    requires HeadsetFields(a) == HeadsetFields(b)
    ensures Quoted(EventName(a.headsetEvent)) == Quoted(EventName(b.headsetEvent))
    ensures a.counts.commandResponses == b.counts.commandResponses
    ensures a.counts.remoteNotifications == b.counts.remoteNotifications
    ensures a.ownerLease == b.ownerLease
    ensures a.counts.leasesAcquired == b.counts.leasesAcquired
  {
    var x, y := HeadsetFields(a), HeadsetFields(b);
    DecimalDetermines(a.counts.commandResponses, b.counts.commandResponses);
    DecimalDetermines(a.counts.remoteNotifications, b.counts.remoteNotifications);
    DecimalDetermines(a.ownerLease, b.ownerLease);
    DecimalDetermines(a.counts.leasesAcquired, b.counts.leasesAcquired);
    assert x[0] == y[0] && x[1] == y[1] && x[2] == y[2] && x[3] == y[3] && x[4] == y[4];
  }

  lemma ModeFieldsDetermine(a: ReplaySnapshot, b: ReplaySnapshot)
    requires ModeFields(a) == ModeFields(b)
    ensures a.counts.leasesRevoked == b.counts.leasesRevoked
    ensures Quoted(ModeName(a.requestedMode)) == Quoted(ModeName(b.requestedMode))
    ensures a.counts.modeChanges == b.counts.modeChanges
    ensures Quoted(ModeName(a.enforcedReplayMode)) == Quoted(ModeName(b.enforcedReplayMode))
    ensures a.emittedActionCount == b.emittedActionCount
  {
    var x, y := ModeFields(a), ModeFields(b);
    DecimalDetermines(a.counts.leasesRevoked, b.counts.leasesRevoked);
    DecimalDetermines(a.counts.modeChanges, b.counts.modeChanges);
    DecimalDetermines(a.emittedActionCount, b.emittedActionCount);
    assert x[0] == y[0] && x[1] == y[1] && x[2] == y[2] && x[3] == y[3] && x[4] == y[4];
  }

  /** No two snapshots with named enumerators render to the same text, valid or not: the rendering loses nothing. */
  lemma TextDeterminesSnapshot(a: ReplaySnapshot, b: ReplaySnapshot)
    requires Named(a) && Named(b) && JsonText(a) == JsonText(b)
    ensures a == b
  {
    assert JsonText(a)[1..|JsonText(a)| - 1] == Entries(Fields(a));
    assert JsonText(b)[1..|JsonText(b)| - 1] == Entries(Fields(b));
    FieldsAgree(a, b);
    SequenceFieldsDetermine(a, b);
    GenerationFieldsDetermine(a, b);
    EndpointFieldsDetermine(a, b);
    HeadsetFieldsDetermine(a, b);
    ModeFieldsDetermine(a, b);
    NamesDetermine(a, b);
    assert a.counts == b.counts;
  }

  // -------------------------------------------------------------- the writer

  /** Appending to a bounded text; an overflow is remembered for good. */
  function Append(written: Option<string>, text: string): Option<string> {
    if written.Some? && |written.value| + |text| <= MAXIMUM_JSON_BYTES then Some(written.value + text) else None
  }

  lemma AppendTwice(written: Option<string>, first: string, second: string)
    ensures Append(Append(written, first), second) == Append(written, first + second)
  {
    if written.Some? {
      assert written.value + first + second == written.value + (first + second);
    }
  }

  function Reversed(text: string): string {
    if text == [] then [] else Reversed(text[1..]) + [text[0]]
  }

  class FixedJsonWriter {
    const storage: array<char>
    var size: nat
    var overflow: bool

    /** The index invariant: writes stay inside the storage. */
    predicate Valid()
      reads this
    {
      storage.Length == MAXIMUM_JSON_BYTES && size <= storage.Length
    }

    function View(): Option<string>
      reads this, storage
      requires Valid()
    {
      if overflow then None else Some(storage[..size])
    }

    constructor ()
      ensures Valid() && View() == Some("") && fresh(storage)
    {
      storage := new char[MAXIMUM_JSON_BYTES](_ => '\0');
      size, overflow := 0, false;
      new;
      assert storage[..0] == "";
    }

    method Reserve(count: nat) returns (ok: bool)
      requires Valid()
      modifies this`overflow
      ensures Valid() && ok == (!old(overflow) && size + count <= MAXIMUM_JSON_BYTES) && overflow == !ok
    {
      if overflow || count > storage.Length - size {
        overflow := true;
        return false;
      }
      return true;
    }

    method Character(value: char)
      requires Valid()
      modifies this, storage
      ensures Valid() && View() == Append(old(View()), [value])
    {
      var ok := Reserve(1);
      if !ok {
        return;
      }
      storage[size] := value;
      size := size + 1;
      assert storage[..size] == old(storage[..size]) + [value];
    }

    method Text(value: Option<string>)
      requires Valid()
      modifies this, storage
      ensures Valid()
      ensures View() == if value.Some? then Append(old(View()), value.value) else None
    {
      if value.None? {
        overflow := true;
        return;
      }
      var text := value.value;
      var ok := Reserve(|text|);
      if !ok {
        return;
      }
      forall i | 0 <= i < |text| {
        storage[size + i] := text[i];
      }
      size := size + |text|;
      assert storage[..size] == old(storage[..size]) + text;
    }

    /** Digits are produced from the last to the first and then written backwards. */
    method Unsigned(value: uint64)
      requires Valid()
      modifies this, storage
      ensures Valid() && View() == Append(old(View()), Decimal(value))
    {
      hide Decimal, Reversed;
      var digits, count := ProduceDigits(value);
      var ok := Reserve(count);
      if !ok {
        return;
      }
      ghost var all := digits[..count];
      ghost var kept := storage[..size];
      while count != 0
        invariant Valid() && !overflow && count <= |all| == |Decimal(value)|
        invariant digits.Length >= |all| && digits[..|all|] == all
        invariant size == |kept| + |all| - count && |kept| + |all| <= MAXIMUM_JSON_BYTES
        invariant storage[..size] == kept + Decimal(value)[..|all| - count]
      {
        count := count - 1;
        ReversedAt(all, |all| - 1 - count);
        storage[size] := digits[count];
        size := size + 1;
        assert storage[..size] == storage[..size - 1] + [digits[count]];
        assert Decimal(value)[..|all| - count] == Decimal(value)[..|all| - count - 1] + [digits[count]];
      }
      assert Decimal(value)[..|all|] == Decimal(value);
    }

    method Boolean(value: bool)
      requires Valid()
      modifies this, storage
      ensures Valid() && View() == Append(old(View()), BooleanText(value))
    {
      Text(Some(if value then "true" else "false"));
    }

    method WriteKey(key: string, first: bool) returns (stillFirst: bool)
      requires Valid()
      modifies this, storage
      ensures Valid() && !stillFirst
      ensures View() == Append(old(View()), FieldText((key, ""), first))
    {
      if !first {
        Character(',');
      }
      stillFirst := false;
      ghost var comma := if first then "" else ",";
      assert View() == Append(old(View()), comma) by {
        if first && View().Some? {
          assert View().value + "" == View().value;
        }
      }
      Character('"');
      AppendTwice(old(View()), comma, "\"");
      Text(Some(key));
      AppendTwice(old(View()), comma + "\"", key);
      Text(Some("\":"));
      AppendTwice(old(View()), comma + "\"" + key, "\":");
      assert FieldText((key, ""), first) == comma + "\"" + key + "\"" + ":" == comma + "\"" + key + "\":";
    }

    method String(value: Option<string>)
      requires Valid()
      modifies this, storage
      ensures Valid() && (value.Some? ==> View() == Append(old(View()), Quoted(value)))
    {
      Character('"');
      Text(value);
      if value.Some? {
        AppendTwice(old(View()), "\"", value.value);
      }
      Character('"');
      if value.Some? {
        AppendTwice(old(View()), "\"" + value.value, "\"");
      }
    }

    // A key and its value, for each kind of value; `done` are the fields before it.

    ghost predicate Wrote(done: seq<Field>)
      reads this, storage
    {
      Valid() && View() == Append(Some(""), "{" + Entries(done))
    }

    method UnsignedField(key: string, value: uint64, first: bool, ghost done: seq<Field>)
      returns (stillFirst: bool, ghost next: seq<Field>)
      requires Wrote(done) && (first <==> done == [])
      modifies this, storage
      ensures next == done + [(key, Decimal(value))] && Wrote(next) && !stillFirst
    {
      stillFirst := WriteKey(key, first);
      ghost var keyed := View();
      Unsigned(value);
      FieldAppends(done, (key, Decimal(value)), keyed);
      next := done + [(key, Decimal(value))];
    }

    method BooleanField(key: string, value: bool, first: bool, ghost done: seq<Field>)
      returns (stillFirst: bool, ghost next: seq<Field>)
      requires Wrote(done) && (first <==> done == [])
      modifies this, storage
      ensures next == done + [(key, BooleanText(value))] && Wrote(next) && !stillFirst
    {
      stillFirst := WriteKey(key, first);
      ghost var keyed := View();
      Boolean(value);
      FieldAppends(done, (key, BooleanText(value)), keyed);
      next := done + [(key, BooleanText(value))];
    }

    method StringField(key: string, value: Option<string>, first: bool, ghost done: seq<Field>)
      returns (stillFirst: bool, ghost next: seq<Field>)
      requires Wrote(done) && (first <==> done == []) && value.Some?
      modifies this, storage
      ensures next == done + [(key, Quoted(value))] && Wrote(next) && !stillFirst
    {
      stillFirst := WriteKey(key, first);
      ghost var keyed := View();
      String(value);
      FieldAppends(done, (key, Quoted(value)), keyed);
      next := done + [(key, Quoted(value))];
    }
  }

  /** The digits of a value, last first, in a twenty-character buffer. */
  method ProduceDigits(value: uint64) returns (digits: array<char>, count: nat)
    ensures fresh(digits) && count <= digits.Length && Reversed(digits[..count]) == Decimal(value)
    ensures count == |Decimal(value)|
  {
    hide Decimal, Reversed;
    digits := new char[20](_ => '\0');
    count := 0;
    var rest: nat := value;
    WordsFitTwentyDigits(value);
    NothingReversed(digits[..0], Decimal(value));
    while true
      invariant count + |Decimal(rest)| <= 20
      invariant Decimal(value) == Decimal(rest) + Reversed(digits[..count])
      decreases rest
    {
      ghost var before := digits[..count];
      DigitMoves(value, rest, before);
      digits[count] := DigitOf(rest % 10);
      assert digits[..count + 1] == before + [DigitOf(rest % 10)];
      count := count + 1;
      if rest / 10 == 0 {
        break;
      }
      rest := rest / 10;
    }
    ReversedLength(digits[..count]);
  }

  lemma NothingReversed(nothing: string, text: string)
    requires nothing == ""
    ensures text + Reversed(nothing) == text
  {
  }

  /** One digit goes over from the number still to print to the digits already produced. */
  lemma DigitMoves(value: nat, rest: nat, before: string)
    requires Decimal(value) == Decimal(rest) + Reversed(before)
    ensures var after := before + [DigitOf(rest % 10)];
            if rest / 10 == 0 then |Decimal(rest)| == 1 && Reversed(after) == Decimal(value)
            else |Decimal(rest)| == |Decimal(rest / 10)| + 1 && Decimal(value) == Decimal(rest / 10) + Reversed(after)
  {
    var digit := DigitOf(rest % 10);
    assert Decimal(rest) == if rest / 10 == 0 then [digit] else Decimal(rest / 10) + [digit];
    hide Decimal, Reversed;
    ReversedAppends(before, digit);
    if rest / 10 != 0 {
      Joins(Decimal(rest / 10), [digit], Reversed(before));
    }
  }

  lemma Joins(a: string, b: string, c: string)
    ensures a + b + c == a + (b + c)
  {
  }

  lemma FieldAppends(done: seq<Field>, field: Field, keyed: Option<string>)
    requires keyed == Append(Append(Some(""), "{" + Entries(done)), FieldText((field.0, ""), done == []))
    ensures Append(keyed, field.1) == Append(Some(""), "{" + Entries(done + [field]))
  {
    var start, key := "{" + Entries(done), FieldText((field.0, ""), done == []);
    AppendTwice(Some(""), start, key);
    AppendTwice(Some(""), start + key, field.1);
    assert (done + [field])[..|done|] == done;
    assert FieldText(field, done == []) == key + field.1;
    assert start + key + field.1 == "{" + (Entries(done) + FieldText(field, done == []));
  }

  lemma {:induction false} ReversedAppends(text: string, last: char)
    ensures Reversed(text + [last]) == [last] + Reversed(text)
  {
    if text != [] {
      assert (text + [last])[1..] == text[1..] + [last];
      ReversedAppends(text[1..], last);
    }
  }

  lemma {:induction false} ReversedLength(text: string)
    ensures |Reversed(text)| == |text|
  {
    if text != [] {
      ReversedLength(text[1..]);
    }
  }

  lemma {:induction false} ReversedAt(text: string, i: nat)
    requires i < |text|
    ensures |Reversed(text)| == |text| && Reversed(text)[i] == text[|text| - 1 - i]
  {
    ReversedLength(text);
    ReversedLength(text[1..]);
    if i < |text| - 1 {
      ReversedAt(text[1..], i);
    }
  }

  // ------------------------------------------------------------- serializing

  method WriteSequenceFields(w: FixedJsonWriter, s: ReplaySnapshot, wasFirst: bool, ghost before: seq<Field>)
    returns (first: bool, ghost done: seq<Field>)
    requires Named(s) && w.Wrote(before) && (wasFirst <==> before == [])
    modifies w, w.storage
    ensures done == before + SequenceFields(s) && w.Wrote(done) && done != [] && !first
  {
    hide Entries, FieldText, FixedJsonWriter.Wrote, FixedJsonWriter.View;
    first, done := wasFirst, before;
    first, done := w.UnsignedField("schema_version", s.schemaVersion, first, done);
    first, done := w.UnsignedField("replayed_event_count", s.replayedEventCount, first, done);
    first, done := w.UnsignedField("last_sequence", s.lastSequence, first, done);
    first, done := w.UnsignedField("generations_started", s.counts.generationsStarted, first, done);
    first, done := w.UnsignedField("generations_ended", s.counts.generationsEnded, first, done);
    assert done == before + SequenceFields(s);
  }

  method WriteGenerationFields(w: FixedJsonWriter, s: ReplaySnapshot, wasFirst: bool, ghost before: seq<Field>)
    returns (first: bool, ghost done: seq<Field>)
    requires Named(s) && w.Wrote(before) && (wasFirst <==> before == [])
    modifies w, w.storage
    ensures done == before + GenerationFields(s) && w.Wrote(done) && done != [] && !first
  {
    hide Entries, FieldText, FixedJsonWriter.Wrote, FixedJsonWriter.View;
    first, done := wasFirst, before;
    first, done := w.UnsignedField("current_generation", s.currentGeneration, first, done);
    first, done := w.BooleanField("generation_current", s.generationCurrent, first, done);
    first, done := w.StringField("support", SupportName(s.support), first, done);
    first, done := w.UnsignedField("capability_event_count", s.counts.capabilities, first, done);
    first, done := w.BooleanField("windows_volume_observed", s.windowsVolumeObserved, first, done);
    assert done == before + GenerationFields(s);
  }

  method WriteEndpointFields(w: FixedJsonWriter, s: ReplaySnapshot, wasFirst: bool, ghost before: seq<Field>)
    returns (first: bool, ghost done: seq<Field>)
    requires Named(s) && w.Wrote(before) && (wasFirst <==> before == [])
    modifies w, w.storage
    ensures done == before + EndpointFields(s) && w.Wrote(done) && done != [] && !first
  {
    hide Entries, FieldText, FixedJsonWriter.Wrote, FixedJsonWriter.View;
    first, done := wasFirst, before;
    first, done := w.UnsignedField("windows_volume_percent", s.windowsVolume.percent, first, done);
    first, done := w.BooleanField("windows_volume_muted", s.windowsVolume.muted, first, done);
    first, done := w.UnsignedField("windows_callback_count", s.counts.windowsCallbacks, first, done);
    first, done := w.BooleanField("xm5_volume_observed", s.headsetVolumeObserved, first, done);
    first, done := w.UnsignedField("xm5_absolute_volume", s.headsetVolume, first, done);
    assert done == before + EndpointFields(s);
  }

  method WriteHeadsetFields(w: FixedJsonWriter, s: ReplaySnapshot, wasFirst: bool, ghost before: seq<Field>)
    returns (first: bool, ghost done: seq<Field>)
    requires Named(s) && w.Wrote(before) && (wasFirst <==> before == [])
    modifies w, w.storage
    ensures done == before + HeadsetFields(s) && w.Wrote(done) && done != [] && !first
  {
    hide Entries, FieldText, FixedJsonWriter.Wrote, FixedJsonWriter.View;
    first, done := wasFirst, before;
    first, done := w.StringField("xm5_event", EventName(s.headsetEvent), first, done);
    first, done := w.UnsignedField("xm5_command_response_count", s.counts.commandResponses, first, done);
    first, done := w.UnsignedField("xm5_remote_notification_count", s.counts.remoteNotifications, first, done);
    first, done := w.UnsignedField("owner_lease", s.ownerLease, first, done);
    first, done := w.UnsignedField("lease_acquire_count", s.counts.leasesAcquired, first, done);
    assert done == before + HeadsetFields(s);
  }

  method WriteModeFields(w: FixedJsonWriter, s: ReplaySnapshot, wasFirst: bool, ghost before: seq<Field>)
    returns (first: bool, ghost done: seq<Field>)
    requires Named(s) && w.Wrote(before) && (wasFirst <==> before == [])
    modifies w, w.storage
    ensures done == before + ModeFields(s) && w.Wrote(done) && done != [] && !first
  {
    hide Entries, FieldText, FixedJsonWriter.Wrote, FixedJsonWriter.View;
    first, done := wasFirst, before;
    first, done := w.UnsignedField("lease_revoke_count", s.counts.leasesRevoked, first, done);
    first, done := w.StringField("requested_mode", ModeName(s.requestedMode), first, done);
    first, done := w.UnsignedField("mode_change_count", s.counts.modeChanges, first, done);
    first, done := w.StringField("enforced_replay_mode", ModeName(s.enforcedReplayMode), first, done);
    first, done := w.UnsignedField("emitted_action_count", s.emittedActionCount, first, done);
    assert done == before + ModeFields(s);
  }

  function SerializeStatus(s: ReplaySnapshot, capacity: nat): JsonStatus {
    if capacity == 0 then InvalidJsonArgument
    else if SnapshotStatus(s) != Succeeded then SnapshotStatus(s)
    else if capacity <= |JsonText(s)| then BufferTooSmall
    else Succeeded
  }

  /**
   Writes the text and a terminating NUL, or leaves the buffer alone. The staging
   buffer never overflows: a valid snapshot fails only for want of capacity.
   */
  method Serialize(s: ReplaySnapshot, output: array<char>, capacity: nat)
    returns (status: JsonStatus, written: Option<nat>)
    requires capacity <= output.Length
    modifies output
    ensures status == SerializeStatus(s, capacity)
    ensures status == Succeeded ==>
              var text := JsonText(s);
              && written == Some(|text|) && |text| < capacity
              && output[..|text|] == text && output[|text|] == '\0'
              && output[|text| + 1..] == old(output[..])[|text| + 1..]
    ensures status != Succeeded ==> written == None && output[..] == old(output[..])
  {
    hide SnapshotStatus, JsonText;
    if capacity == 0 {
      return InvalidJsonArgument, None;
    }
    var validation := SnapshotStatus(s);
    if validation != Succeeded {
      return validation, None;
    }
    ValidMeansNamed(s);
    var w := StageText(s);
    TextFits(s);
    if w.overflow {
      return InternalOverflow, None;
    }
    if capacity <= w.size {
      return BufferTooSmall, None;
    }
    forall i | 0 <= i < w.size {
      output[i] := w.storage[i];
    }
    output[w.size] := '\0';
    assert w.storage[..w.size] == JsonText(s);
    return Succeeded, Some(w.size);
  }

  method StageText(s: ReplaySnapshot) returns (w: FixedJsonWriter)
    requires Named(s)
    ensures fresh(w) && fresh(w.storage) && w.Valid() && w.View() == Some(JsonText(s))
  {
    hide SequenceFields, GenerationFields, EndpointFields, HeadsetFields, ModeFields, Entries, JsonText;
    hide FixedJsonWriter.View, Append;
    w := new FixedJsonWriter();
    w.Character('{');
    OpensText();
    var first, done := WriteSequenceFields(w, s, true, []);
    first, done := WriteGenerationFields(w, s, first, done);
    first, done := WriteEndpointFields(w, s, first, done);
    first, done := WriteHeadsetFields(w, s, first, done);
    first, done := WriteModeFields(w, s, first, done);
    assert done == Fields(s);
    w.Character('}');
    ClosesText(s);
  }

  lemma OpensText()
    ensures Append(Some(""), "{") == Append(Some(""), "{" + Entries([]))
  {
    NoEntries();
    assert "{" + "" == "{";
  }

  lemma ClosesText(s: ReplaySnapshot)
    ensures Append(Append(Some(""), "{" + Entries(Fields(s))), "}") == Some(JsonText(s))
  {
    hide Fields;
    AppendTwice(Some(""), "{" + Entries(Fields(s)), "}");
    TextFits(s);
    assert "" + JsonText(s) == JsonText(s);
  }

  lemma ValidMeansNamed(s: ReplaySnapshot)
    ensures SnapshotStatus(s) == Succeeded ==> Named(s)
  {
  }
}
