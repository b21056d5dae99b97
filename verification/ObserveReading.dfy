/**
 Reading the rendered snapshot back: a reader of flat objects that knows nothing of the
 writer of agent/avrcp_absolute_volume_observe_json.cpp finds every value by its key.
 */
module ObserveReading {
  import opened Words
  import opened AbsoluteVolume
  import opened VolumeGating
  import opened ObserveLog
  import opened DecimalText
  import opened ObserveJson

  // ----------------------------------------------------------- the reader

  /** The text up to the first of these characters. */
  function UpTo(text: string, stops: set<char>): (prefix: string)
    ensures |prefix| <= |text|
  {
    if text == "" || text[0] in stops then "" else [text[0]] + UpTo(text[1..], stops)
  }

  /** Keys are quoted; a value ends at a comma or a closing brace. */
  function ReadFields(text: string): seq<Field>
    decreases |text|
  {
    if text == "" || text[0] != '"' then []
    else
      var key := UpTo(text[1..], {'"'});
      var rest := text[1 + |key|..];
      if |rest| < 2 || rest[1] != ':' then []
      else
        var value := UpTo(rest[2..], {',', '}'});
        var more := rest[2 + |value|..];
        [(key, value)] + (if more != "" && more[0] == ',' then ReadFields(more[1..]) else [])
  }

  function ReadObject(text: string): seq<Field> {
    if text == "" || text[0] != '{' then [] else ReadFields(text[1..])
  }

  function Lookup(fields: seq<Field>, key: string): Option<string> {
    if fields == [] then None else if fields[0].0 == key then Some(fields[0].1) else Lookup(fields[1..], key)
  }

  function Reading(text: string, key: string): Option<string> {
    Lookup(ReadObject(text), key)
  }

  /** The number under a key, as the digit loop reads it. */
  ghost function NumberUnder(text: string, key: string): Option<nat> {
    var value := Reading(text, key);
    if value.None? || value.value == "" then None
    else
      match Scanned(value.value, 0)
      case None => None
      case Some(pair) => if pair.1 == |value.value| then Some(pair.0) else None
  }

  // ------------------------------------------------- reading what was written

  lemma {:induction false} UpToFinds(prefix: string, rest: string, stops: set<char>)
    requires forall i :: 0 <= i < |prefix| ==> prefix[i] !in stops
    requires rest != "" && rest[0] in stops
    ensures UpTo(prefix + rest, stops) == prefix
  {
    if prefix == "" {
      assert prefix + rest == rest;
    } else {
      assert (prefix + rest)[0] == prefix[0] && (prefix + rest)[1..] == prefix[1..] + rest;
      UpToFinds(prefix[1..], rest, stops);
    }
  }

  /** The entries after the first, each led by a comma. */
  function Tail(fields: seq<Field>): string {
    if fields == [] then "" else FieldText(fields[0], false) + Tail(fields[1..])
  }

  lemma {:induction false} TailExtends(fields: seq<Field>, field: Field)
    ensures Tail(fields + [field]) == Tail(fields) + FieldText(field, false)
  {
    hide FieldText;
    if fields == [] {
      assert [] + [field] == [field] && [field][1..] == [];
      assert FieldText(field, false) + "" == "" + FieldText(field, false);
    } else {
      assert (fields + [field])[0] == fields[0] && (fields + [field])[1..] == fields[1..] + [field];
      TailExtends(fields[1..], field);
      assert FieldText(fields[0], false) + (Tail(fields[1..]) + FieldText(field, false)) ==
             FieldText(fields[0], false) + Tail(fields[1..]) + FieldText(field, false);
    }
  }

  lemma {:induction false} EntriesFromTheFront(fields: seq<Field>)
    requires fields != []
    ensures Entries(fields) == FieldText(fields[0], true) + Tail(fields[1..])
  {
    hide FieldText;
    var last := |fields| - 1;
    if last == 0 {
      assert fields[..0] == [] && fields[1..] == [];
      assert "" + FieldText(fields[0], true) == FieldText(fields[0], true) + "";
    } else {
      EntriesFromTheFront(fields[..last]);
      TailExtends(fields[1..last], fields[last]);
      assert fields[..last][1..] == fields[1..last] && fields[1..] == fields[1..last] + [fields[last]];
      assert FieldText(fields[0], true) + Tail(fields[1..last]) + FieldText(fields[last], false) ==
             FieldText(fields[0], true) + (Tail(fields[1..last]) + FieldText(fields[last], false));
    }
  }

  /** A key, a colon and a value, up to a stop. */
  lemma PiecesAreRead(text: string, key: string, afterKey: string, value: string, more: string)
    requires text != "" && text[0] == '"' && text[1..] == key + afterKey
    requires |afterKey| >= 2 && afterKey[0] == '"' && afterKey[1] == ':' && afterKey[2..] == value + more
    requires QuoteFree(key) && Clean(value) && more != "" && (more[0] == ',' || more[0] == '}')
    ensures ReadFields(text) == [(key, value)] + (if more[0] == ',' then ReadFields(more[1..]) else [])
  {
    UpToFinds(key, afterKey, {'"'});
    assert text[1 + |key|..] == text[1..][|key|..] == afterKey;
    UpToFinds(value, more, {',', '}'});
    assert afterKey[2 + |value|..] == afterKey[2..][|value|..] == more;
    hide UpTo, Clean, QuoteFree;
  }

  lemma FieldShape(field: Field, more: string)
    ensures var text, afterKey := FieldText(field, true) + more, "\":" + field.1 + more;
            && text != "" && text[0] == '"' && text[1..] == field.0 + afterKey
            && |afterKey| >= 2 && afterKey[0] == '"' && afterKey[1] == ':' && afterKey[2..] == field.1 + more
  {
    assert FieldText(field, true) == "" + "\"" + field.0 + "\"" + ":" + field.1;
    assert FieldText(field, true) + more == "\"" + (field.0 + ("\":" + field.1 + more));
  }

  /** One field in front of anything that begins with a stop is read as it was written. */
  lemma FieldIsRead(field: Field, more: string)
    requires Plain(field) && more != "" && (more[0] == ',' || more[0] == '}')
    ensures ReadFields(FieldText(field, true) + more) ==
            [field] + (if more[0] == ',' then ReadFields(more[1..]) else [])
  {
    hide ReadFields, FieldText, Clean, QuoteFree;
    FieldShape(field, more);
    PiecesAreRead(FieldText(field, true) + more, field.0, "\":" + field.1 + more, field.1, more);
    assert (field.0, field.1) == field;
  }

  lemma {:induction false} FieldsAreRead(first: Field, rest: seq<Field>)
    requires Plain(first) && forall i :: 0 <= i < |rest| ==> Plain(rest[i])
    ensures ReadFields(FieldText(first, true) + Tail(rest) + "}") == [first] + rest
    decreases rest
  {
    hide ReadFields, FieldText, Plain;
    var more := Tail(rest) + "}";
    assert FieldText(first, true) + Tail(rest) + "}" == FieldText(first, true) + more;
    if rest == [] {
      assert more == "}";
      FieldIsRead(first, more);
      assert [first] + [] == [first] + rest;
    } else {
      CommaLeads(rest[0]);
      assert more == "," + (FieldText(rest[0], true) + Tail(rest[1..]) + "}");
      FieldIsRead(first, more);
      assert more[1..] == FieldText(rest[0], true) + Tail(rest[1..]) + "}";
      FieldsAreRead(rest[0], rest[1..]);
      assert [rest[0]] + rest[1..] == rest;
    }
  }

  lemma CommaLeads(field: Field)
    ensures FieldText(field, false) == "," + FieldText(field, true)
  {
  }

  /** Every snapshot is read back field by field, in order. */
  lemma ObjectIsRead(s: ReplaySnapshot)
    ensures ReadObject(JsonText(s)) == Fields(s)
  {
    hide Entries, ReadFields, Fields, FieldText;
    FieldsMatch(s, s);
    var fields := Fields(s);
    EntriesFromTheFront(fields);
    FieldsAreRead(fields[0], fields[1..]);
    assert JsonText(s)[1..] == FieldText(fields[0], true) + Tail(fields[1..]) + "}";
    assert [fields[0]] + fields[1..] == fields;
  }

  // ------------------------------------------------------- values by their keys

  /** Enough of a key to tell the twenty-five apart. */
  function Signature(key: string): (nat, char, char) {
    (|key|, if key == "" then ' ' else key[0], if |key| <= 8 then ' ' else key[8])
  }

  ghost predicate ToldApart(fields: seq<Field>) {
    forall i, j :: 0 <= i < j < |fields| ==> Signature(fields[i].0) != Signature(fields[j].0)
  }

  lemma {:induction false} LookupFinds(fields: seq<Field>, i: nat)
    requires ToldApart(fields) && i < |fields|
    ensures Lookup(fields, fields[i].0) == Some(fields[i].1)
  {
    if i > 0 {
      assert Signature(fields[0].0) != Signature(fields[i].0);
      hide Signature;
      assert ToldApart(fields[1..]);
      LookupFinds(fields[1..], i - 1);
    }
  }

  lemma DecimalIsScanned(value: uint64)
    ensures Decimal(value) != "" && Scanned(Decimal(value), 0) == Some((value, |Decimal(value)|))
  {
    DecimalDenotes(value);
    PrintThenParse("", value, "");
    assert "" + Decimal(value) + "" == Decimal(value);
  }

  lemma NumberIsRead(s: ReplaySnapshot, i: nat, value: uint64)
    requires ToldApart(Fields(s)) && i < |Fields(s)| && Fields(s)[i].1 == Decimal(value)
    ensures NumberUnder(JsonText(s), Fields(s)[i].0) == Some(value)
  {
    hide Fields, JsonText, ReadObject, Decimal, Scanned;
    ObjectIsRead(s);
    LookupFinds(Fields(s), i);
    DecimalIsScanned(value);
  }

  lemma TextIsRead(s: ReplaySnapshot, i: nat)
    requires ToldApart(Fields(s)) && i < |Fields(s)|
    ensures Reading(JsonText(s), Fields(s)[i].0) == Some(Fields(s)[i].1)
  {
    hide Fields, JsonText, ReadObject;
    ObjectIsRead(s);
    LookupFinds(Fields(s), i);
  }

  /** The place of a key among the twenty-five, by its signature. */
  function Place(signature: (nat, char, char)): nat {
    match signature
    case (14, 's', 'e') => 0
    case (20, 'r', '_') => 1
    case (13, 'l', 'u') => 2
    case (19, 'g', 'o') => 3
    case (17, 'g', 'o') => 4
    case (18, 'c', 'g') => 5
    case (18, 'g', 'o') => 6
    case (7, 's', ' ') => 7
    case (22, 'c', 't') => 8
    case (23, 'w', 'v') => 9
    case (22, 'w', 'v') => 10
    case (20, 'w', 'v') => 11
    case (22, 'w', 'c') => 12
    case (19, 'x', 'm') => 13
    case (19, 'x', 'l') => 14
    case (9, 'x', 't') => 15
    case (26, 'x', 'a') => 16
    case (29, 'x', 't') => 17
    case (11, 'o', 'a') => 18
    case (19, 'l', 'q') => 19
    case (18, 'l', 'v') => 20
    case (14, 'r', 'd') => 21
    case (17, 'm', 'n') => 22
    case (20, 'e', '_') => 23
    case (20, 'e', 'a') => 24
    case _ => 25
  }

  lemma SequencePlaces(s: ReplaySnapshot)
    ensures forall i :: 0 <= i < 5 ==> Place(Signature(SequenceFields(s)[i].0)) == i
  {
    hide Decimal, Quoted, BooleanText;
  }

  lemma GenerationPlaces(s: ReplaySnapshot)
    ensures forall i :: 0 <= i < 5 ==> Place(Signature(GenerationFields(s)[i].0)) == 5 + i
  {
    hide Decimal, Quoted, BooleanText;
  }

  lemma EndpointPlaces(s: ReplaySnapshot)
    ensures forall i :: 0 <= i < 5 ==> Place(Signature(EndpointFields(s)[i].0)) == 10 + i
  {
    hide Decimal, Quoted, BooleanText;
  }

  lemma HeadsetPlaces(s: ReplaySnapshot)
    ensures forall i :: 0 <= i < 5 ==> Place(Signature(HeadsetFields(s)[i].0)) == 15 + i
  {
    hide Decimal, Quoted, BooleanText;
  }

  lemma ModePlaces(s: ReplaySnapshot)
    ensures forall i :: 0 <= i < 5 ==> Place(Signature(ModeFields(s)[i].0)) == 20 + i
  {
    hide Decimal, Quoted, BooleanText;
  }

  lemma FieldsByGroup(s: ReplaySnapshot)
    ensures |Fields(s)| == 25 && |SequenceFields(s)| == |GenerationFields(s)| == |EndpointFields(s)| == 5
    ensures |HeadsetFields(s)| == |ModeFields(s)| == 5
    ensures forall i :: 0 <= i < 5 ==>
              && Fields(s)[i] == SequenceFields(s)[i] && Fields(s)[5 + i] == GenerationFields(s)[i]
              && Fields(s)[10 + i] == EndpointFields(s)[i] && Fields(s)[15 + i] == HeadsetFields(s)[i]
              && Fields(s)[20 + i] == ModeFields(s)[i]
  {
    hide Decimal, Quoted, BooleanText;
  }

  lemma KeyPlaces(s: ReplaySnapshot, i: nat)
    requires i < |Fields(s)|
    ensures Place(Signature(Fields(s)[i].0)) == i
  {
    FieldsByGroup(s);
    SequencePlaces(s);
    GenerationPlaces(s);
    EndpointPlaces(s);
    HeadsetPlaces(s);
    ModePlaces(s);
    hide SequenceFields, GenerationFields, EndpointFields, HeadsetFields, ModeFields, Fields, Place, Signature;
    if i < 5 {
      assert Fields(s)[i] == SequenceFields(s)[i];
    } else if i < 10 {
      assert Fields(s)[5 + (i - 5)] == GenerationFields(s)[i - 5];
    } else if i < 15 {
      assert Fields(s)[10 + (i - 10)] == EndpointFields(s)[i - 10];
    } else if i < 20 {
      assert Fields(s)[15 + (i - 15)] == HeadsetFields(s)[i - 15];
    } else {
      assert Fields(s)[20 + (i - 20)] == ModeFields(s)[i - 20];
    }
  }

  lemma KeysAreToldApart(s: ReplaySnapshot)
    ensures ToldApart(Fields(s))
  {
    hide Fields, Signature, Place;
    forall i, j | 0 <= i < j < |Fields(s)|
      ensures Signature(Fields(s)[i].0) != Signature(Fields(s)[j].0)
    {
      KeyPlaces(s, i);
      KeyPlaces(s, j);
    }
  }

  lemma SequenceIsRead(s: ReplaySnapshot)
    ensures NumberUnder(JsonText(s), "schema_version") == Some(s.schemaVersion)
    ensures NumberUnder(JsonText(s), "replayed_event_count") == Some(s.replayedEventCount)
    ensures NumberUnder(JsonText(s), "last_sequence") == Some(s.lastSequence)
    ensures NumberUnder(JsonText(s), "generations_started") == Some(s.counts.generationsStarted)
    ensures NumberUnder(JsonText(s), "generations_ended") == Some(s.counts.generationsEnded)
  {
    hide Decimal, Quoted, BooleanText, ToldApart, Fields, JsonText, NumberUnder, Reading;
    KeysAreToldApart(s);
    FieldsByGroup(s);
    assert Fields(s)[0] == SequenceFields(s)[0];
    NumberIsRead(s, 0, s.schemaVersion);
    assert Fields(s)[1] == SequenceFields(s)[1];
    NumberIsRead(s, 1, s.replayedEventCount);
    assert Fields(s)[2] == SequenceFields(s)[2];
    NumberIsRead(s, 2, s.lastSequence);
    assert Fields(s)[3] == SequenceFields(s)[3];
    NumberIsRead(s, 3, s.counts.generationsStarted);
    assert Fields(s)[4] == SequenceFields(s)[4];
    NumberIsRead(s, 4, s.counts.generationsEnded);
  }

  lemma GenerationIsRead(s: ReplaySnapshot)
    ensures NumberUnder(JsonText(s), "current_generation") == Some(s.currentGeneration)
    ensures Reading(JsonText(s), "generation_current") == Some(BooleanText(s.generationCurrent))
    ensures Reading(JsonText(s), "support") == Some(Quoted(SupportName(s.support)))
    ensures NumberUnder(JsonText(s), "capability_event_count") == Some(s.counts.capabilities)
    ensures Reading(JsonText(s), "windows_volume_observed") == Some(BooleanText(s.windowsVolumeObserved))
  {
    hide Decimal, Quoted, BooleanText, ToldApart, Fields, JsonText, NumberUnder, Reading;
    KeysAreToldApart(s);
    FieldsByGroup(s);
    assert Fields(s)[5 + 0] == GenerationFields(s)[0];
    NumberIsRead(s, 5, s.currentGeneration);
    assert Fields(s)[5 + 1] == GenerationFields(s)[1];
    TextIsRead(s, 6);
    assert Fields(s)[5 + 2] == GenerationFields(s)[2];
    TextIsRead(s, 7);
    assert Fields(s)[5 + 3] == GenerationFields(s)[3];
    NumberIsRead(s, 8, s.counts.capabilities);
    assert Fields(s)[5 + 4] == GenerationFields(s)[4];
    TextIsRead(s, 9);
  }

  lemma EndpointIsRead(s: ReplaySnapshot)
    ensures NumberUnder(JsonText(s), "windows_volume_percent") == Some(s.windowsVolume.percent)
    ensures Reading(JsonText(s), "windows_volume_muted") == Some(BooleanText(s.windowsVolume.muted))
    ensures NumberUnder(JsonText(s), "windows_callback_count") == Some(s.counts.windowsCallbacks)
    ensures Reading(JsonText(s), "xm5_volume_observed") == Some(BooleanText(s.headsetVolumeObserved))
    ensures NumberUnder(JsonText(s), "xm5_absolute_volume") == Some(s.headsetVolume)
  {
    hide Decimal, Quoted, BooleanText, ToldApart, Fields, JsonText, NumberUnder, Reading;
    KeysAreToldApart(s);
    FieldsByGroup(s);
    assert Fields(s)[10 + 0] == EndpointFields(s)[0];
    NumberIsRead(s, 10, s.windowsVolume.percent);
    assert Fields(s)[10 + 1] == EndpointFields(s)[1];
    TextIsRead(s, 11);
    assert Fields(s)[10 + 2] == EndpointFields(s)[2];
    NumberIsRead(s, 12, s.counts.windowsCallbacks);
    assert Fields(s)[10 + 3] == EndpointFields(s)[3];
    TextIsRead(s, 13);
    assert Fields(s)[10 + 4] == EndpointFields(s)[4];
    NumberIsRead(s, 14, s.headsetVolume);
  }

  lemma HeadsetIsRead(s: ReplaySnapshot)
    ensures Reading(JsonText(s), "xm5_event") == Some(Quoted(EventName(s.headsetEvent)))
    ensures NumberUnder(JsonText(s), "xm5_command_response_count") == Some(s.counts.commandResponses)
    ensures NumberUnder(JsonText(s), "xm5_remote_notification_count") == Some(s.counts.remoteNotifications)
    ensures NumberUnder(JsonText(s), "owner_lease") == Some(s.ownerLease)
    ensures NumberUnder(JsonText(s), "lease_acquire_count") == Some(s.counts.leasesAcquired)
  {
    hide Decimal, Quoted, BooleanText, ToldApart, Fields, JsonText, NumberUnder, Reading;
    KeysAreToldApart(s);
    FieldsByGroup(s);
    assert Fields(s)[15 + 0] == HeadsetFields(s)[0];
    TextIsRead(s, 15);
    assert Fields(s)[15 + 1] == HeadsetFields(s)[1];
    NumberIsRead(s, 16, s.counts.commandResponses);
    assert Fields(s)[15 + 2] == HeadsetFields(s)[2];
    NumberIsRead(s, 17, s.counts.remoteNotifications);
    assert Fields(s)[15 + 3] == HeadsetFields(s)[3];
    NumberIsRead(s, 18, s.ownerLease);
    assert Fields(s)[15 + 4] == HeadsetFields(s)[4];
    NumberIsRead(s, 19, s.counts.leasesAcquired);
  }

  lemma ModeIsRead(s: ReplaySnapshot)
    ensures NumberUnder(JsonText(s), "lease_revoke_count") == Some(s.counts.leasesRevoked)
    ensures Reading(JsonText(s), "requested_mode") == Some(Quoted(ModeName(s.requestedMode)))
    ensures NumberUnder(JsonText(s), "mode_change_count") == Some(s.counts.modeChanges)
    ensures Reading(JsonText(s), "enforced_replay_mode") == Some(Quoted(ModeName(s.enforcedReplayMode)))
    ensures NumberUnder(JsonText(s), "emitted_action_count") == Some(s.emittedActionCount)
  {
    hide Decimal, Quoted, BooleanText, ToldApart, Fields, JsonText, NumberUnder, Reading;
    KeysAreToldApart(s);
    FieldsByGroup(s);
    assert Fields(s)[20 + 0] == ModeFields(s)[0];
    NumberIsRead(s, 20, s.counts.leasesRevoked);
    assert Fields(s)[20 + 1] == ModeFields(s)[1];
    TextIsRead(s, 21);
    assert Fields(s)[20 + 2] == ModeFields(s)[2];
    NumberIsRead(s, 22, s.counts.modeChanges);
    assert Fields(s)[20 + 3] == ModeFields(s)[3];
    TextIsRead(s, 23);
    assert Fields(s)[20 + 4] == ModeFields(s)[4];
    NumberIsRead(s, 24, s.emittedActionCount);
  }

  /**
   Read back from the rendered text, each number, each flag and each name stands under the
   key that says what it is: here the ones that describe what was last observed.
   */
  lemma ObservationsAreRead(s: ReplaySnapshot)
    requires Named(s)
    ensures var text := JsonText(s);
            && NumberUnder(text, "current_generation") == Some(s.currentGeneration)
            && (Reading(text, "generation_current") == Some("true") <==> s.generationCurrent)
            && (Reading(text, "support") == Some("\"supported\"") <==> s.support == Supported)
            && NumberUnder(text, "windows_volume_percent") == Some(s.windowsVolume.percent)
            && (Reading(text, "windows_volume_muted") == Some("true") <==> s.windowsVolume.muted)
            && NumberUnder(text, "xm5_absolute_volume") == Some(s.headsetVolume)
            && NumberUnder(text, "owner_lease") == Some(s.ownerLease)
            && (Reading(text, "requested_mode") == Some("\"synchronize\"") <==> s.requestedMode == Synchronize)
  {
    GenerationIsRead(s);
    EndpointIsRead(s);
    HeadsetIsRead(s);
    ModeIsRead(s);
    BooleansDiffer();
    NamesDiffer(s);
    hide Reading, NumberUnder, JsonText, Quoted, BooleanText;
  }

  lemma BooleansDiffer()
    ensures BooleanText(true) == "true" && BooleanText(false) != "true"
  {
    assert BooleanText(false)[0] == 'f';
  }

  lemma NamesDiffer(s: ReplaySnapshot)
    requires Named(s)
    ensures Quoted(SupportName(s.support)) == "\"supported\"" <==> s.support == Supported
    ensures Quoted(ModeName(s.requestedMode)) == "\"synchronize\"" <==> s.requestedMode == Synchronize
  {
    var supported := s.(support := Supported, requestedMode := Synchronize);
    NamesDetermine(s, supported);
    assert Quoted(SupportName(Supported)) == "\"supported\"" && Quoted(ModeName(Synchronize)) == "\"synchronize\"";
  }
}
