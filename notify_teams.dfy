/**
 The classification and formatting core of the Teams notifier
 (functions/notify_teams.py): an SNS record is unwrapped from the Lambda
 event, its `Message` is decoded, and the decoded payload is classified as a
 CloudWatch alarm, a CloudTrail service event or anything else. Each class
 has its own formatter producing colour, title and text, and the result is
 wrapped in the fixed Adaptive Card message.

 json.loads and json.dumps are library calls and stay opaque: they are
 parameters of the model, `decode` and `dumps`.
 */
module NotifyTeams {
  import opened Strings
  import opened Python
  import opened AdaptiveCard

  /** json.loads on a str: the decoded value, or None when the text is not JSON. */
  type Decoder = string -> Option<Json>

  /** json.dumps(d, indent=2) of a dict `d` with these keys in this order. */
  type Serialiser = Fields -> string

  /** The `detail-type` of a CloudTrail service event. */
  const CloudTrailMarker := "AWS Service Event via CloudTrail"

  /** Literal cards that replace the computed alarm card for a
      (new state, alarm name) pair. */
  type OverrideTable = map<(string, string), CardData>

  /** The override table of the handler. */
  const Overrides: OverrideTable := map[
    ("ALARM", "my-alarm-name") := CardData(
      Some(Attention),
      "Red Alert - A bad thing happened.",
      "These are the specific details of the bad thing."),
    ("OK", "my-alarm-name") := CardData(
      Some(Good),
      "The bad thing stopped happening",
      "These are the specific details of how we know the bad thing stopped happening")]

  /** The table holds exactly the two entries for "my-alarm-name": the
      upper-case "ALARM" state is Attention and the "OK" state is Good. */
  lemma OverrideEntries()
    ensures Overrides.Keys == {("ALARM", "my-alarm-name"), ("OK", "my-alarm-name")}
    ensures Overrides[("ALARM", "my-alarm-name")].colour == Some(Attention)
    ensures Overrides[("OK", "my-alarm-name")].colour == Some(Good)
  {
  }

  // ---------------------------------------------------------------------------
  // Classification
  // ---------------------------------------------------------------------------

  /** `is_cloudwatch_alarm(message)`: decodes again and asks for `AlarmName`;
      text that is not JSON is not an alarm. */
  function IsCloudWatchAlarm(message: string, decode: Decoder): (r: Result<bool>)
    ensures decode(message).None? ==> r == Ok(false)
    ensures decode(message).Some? && decode(message).value.JObj? ==>
      r == Ok("AlarmName" in decode(message).value.fields)
  {
    match decode(message)
    case None => Ok(false)
    case Some(v) => In("AlarmName", v)
  }

  /** The three formatters a payload can be routed to. */
  datatype Branch =
    | AlarmBranch(alarm: map<string, Json>)
    | CloudTrailBranch(event: map<string, Json>)
    | GenericBranch

  /** The payload is a CloudTrail service event by its `detail-type`:
      `payload.get('detail-type')` equals the marker exactly. */
  predicate IsCloudTrailEvent(payload: map<string, Json>): (r: bool)
    ensures r <==> Get(JObj(payload), "detail-type", JNull) == Ok(JStr(CloudTrailMarker))
  {
    "detail-type" in payload && payload["detail-type"] == JStr(CloudTrailMarker)
  }

  /** The if/elif/else of the handler on the decoded payload of `message`.
      First match wins: `AlarmName` present, then the exact CloudTrail
      `detail-type`, then the generic fallback. A payload that is not a dict
      makes the handler raise on the way. */
  function Classify(message: string, payload: Json, decode: Decoder): (r: Result<Branch>)
    requires decode(message) == Some(payload)
    ensures payload.JObj? && "AlarmName" in payload.fields ==>
      r == Ok(AlarmBranch(payload.fields))
    ensures payload.JObj? && "AlarmName" !in payload.fields && IsCloudTrailEvent(payload.fields) ==>
      r == Ok(CloudTrailBranch(payload.fields))
    ensures payload.JObj? && "AlarmName" !in payload.fields && !IsCloudTrailEvent(payload.fields) ==>
      r == Ok(GenericBranch)
    ensures !payload.JObj? ==> r.Err?
  {
    var named :- In("AlarmName", payload);
    match (if named then IsCloudWatchAlarm(message, decode) else Ok(false))
    case Err(e) => Err(e)
    case Ok(true) =>
      (match payload
       case JObj(m) => Ok(AlarmBranch(m))
       case _ => Err(TypeError))  // message_json['AlarmName'] on a str or a list
    case Ok(false) =>
      match Get(payload, "detail-type", JNull)
      case Err(e) => Err(e)
      case Ok(detailType) =>
        if detailType == JStr(CloudTrailMarker) then Ok(CloudTrailBranch(payload.fields))
        else Ok(GenericBranch)
  }

  /** The second half of the alarm guard, `is_cloudwatch_alarm(message)`,
      never changes the outcome: it decodes the same text to the same value
      and asks the same question as the first half. */
  lemma AlarmGuardRedundant(message: string, payload: Json, decode: Decoder)
    requires decode(message) == Some(payload)
    ensures In("AlarmName", payload).Ok? ==> IsCloudWatchAlarm(message, decode) == In("AlarmName", payload)
  {
  }

  // ---------------------------------------------------------------------------
  // Alarm formatter
  // ---------------------------------------------------------------------------

  /** The alarm fields the handler reads are all present, the new state is a
      str (it has `.lower()`), and the other three are values an f-string
      renders without a repr (so the name is also hashable). */
  predicate IsRenderableAlarm(alarm: map<string, Json>) {
    && "AlarmName" in alarm && Scalar(alarm["AlarmName"])
    && "OldStateValue" in alarm && Scalar(alarm["OldStateValue"])
    && "NewStateValue" in alarm && alarm["NewStateValue"].JStr?
    && "NewStateReason" in alarm && Scalar(alarm["NewStateReason"])
  }

  /** The four alarm fields are present and the (new state, alarm name)
      pair is a key of the table: the entry is returned, whatever the other
      two fields hold. */
  predicate IsOverriddenAlarm(alarm: map<string, Json>, overrides: OverrideTable) {
    && "AlarmName" in alarm && "OldStateValue" in alarm
    && "NewStateValue" in alarm && "NewStateReason" in alarm
    && OverrideKey(alarm).Some? && OverrideKey(alarm).value in overrides
  }

  /** The key the override table is consulted with: the exact new state and
      the alarm name, when both are strings. */
  function OverrideKey(alarm: map<string, Json>): Option<(string, string)> {
    if "NewStateValue" in alarm && alarm["NewStateValue"].JStr?
      && "AlarmName" in alarm && alarm["AlarmName"].JStr?
    then Some((alarm["NewStateValue"].s, alarm["AlarmName"].s))
    else None
  }

  /** The alarm branch of the handler: the computed card (colour and title
      from whether the new state is "alarm" in any case, text from a fixed
      template), replaced wholesale by an override entry for the exact
      (new state, alarm name) pair. */
  function AlarmCard(alarm: map<string, Json>, overrides: OverrideTable): (r: Result<CardData>)
    // the fields are read in this order; the first missing one is the KeyError
    ensures "AlarmName" !in alarm ==> r == Err(KeyError("AlarmName"))
    ensures "AlarmName" in alarm && "OldStateValue" !in alarm ==> r == Err(KeyError("OldStateValue"))
    ensures "AlarmName" in alarm && "OldStateValue" in alarm && "NewStateValue" !in alarm ==>
      r == Err(KeyError("NewStateValue"))
    ensures ("AlarmName" in alarm && "OldStateValue" in alarm && "NewStateValue" in alarm
      && "NewStateReason" !in alarm) ==> r == Err(KeyError("NewStateReason"))
    // only a str has .lower()
    ensures (&& "AlarmName" in alarm && "OldStateValue" in alarm && "NewStateValue" in alarm
      && "NewStateReason" in alarm && !alarm["NewStateValue"].JStr?) ==> r == Err(AttributeError)
    // a list or dict as the alarm name cannot be hashed for the lookup
    ensures (&& "AlarmName" in alarm && "OldStateValue" in alarm && "NewStateValue" in alarm
      && "NewStateReason" in alarm && alarm["NewStateValue"].JStr? && !Scalar(alarm["AlarmName"])) ==>
      r == Err(TypeError)
    ensures r.Ok? <==> IsRenderableAlarm(alarm) || IsOverriddenAlarm(alarm, overrides)
    // an exact match in the table wins in all three fields
    ensures IsOverriddenAlarm(alarm, overrides) ==> r == Ok(overrides[OverrideKey(alarm).value])
    // without a match, an old state or reason the model cannot render
    ensures (&& "AlarmName" in alarm && "OldStateValue" in alarm && "NewStateValue" in alarm
      && "NewStateReason" in alarm && alarm["NewStateValue"].JStr? && Scalar(alarm["AlarmName"])
      && !IsOverriddenAlarm(alarm, overrides)
      && (!Scalar(alarm["OldStateValue"]) || !Scalar(alarm["NewStateReason"]))) ==>
      r == Err(ReprNotModelled)
    // otherwise the computed card, with None, bools and numbers rendered by str()
    ensures IsRenderableAlarm(alarm) && !(OverrideKey(alarm).Some? && OverrideKey(alarm).value in overrides) ==>
      var name := Str(alarm["AlarmName"]);
      var newState := alarm["NewStateValue"].s;
      var isAlarm := Lower(newState) == "alarm";
      && (r.value.colour == Some(Attention) <==> isAlarm)
      && (r.value.colour == Some(Good) <==> !isAlarm)
      && r.value.title == (if isAlarm then "Red Alert - " else "Resolved - ") + name
      && r.value.text == "**" + name + "** changed from **" + Str(alarm["OldStateValue"])
           + "** to **" + newState + "**\n\nReason: " + Str(alarm["NewStateReason"])
  {
    var name :- GetItem(JObj(alarm), "AlarmName");
    var oldState :- GetItem(JObj(alarm), "OldStateValue");
    var newState :- GetItem(JObj(alarm), "NewStateValue");
    var reason :- GetItem(JObj(alarm), "NewStateReason");
    if !newState.JStr? then Err(AttributeError)
    else if !Scalar(name) then Err(TypeError)  // the lookup key must be hashable
    else if name.JStr? && (newState.s, name.s) in overrides then Ok(overrides[(newState.s, name.s)])
    else if !Scalar(oldState) || !Scalar(reason) then Err(ReprNotModelled)
    else
      var nameText, oldText, reasonText := Str(name), Str(oldState), Str(reason);
      var isAlarm := Lower(newState.s) == "alarm";
      var base := CardData(
        Some(if isAlarm then Attention else Good),
        (if isAlarm then "Red Alert" else "Resolved") + " - " + nameText,
        "**" + nameText + "** changed from **" + oldText + "** to **" + newState.s
          + "**\n\nReason: " + reasonText);
      Ok(base)
  }

  /** The override table never turns a success into a failure and never
      changes an error; an exact key match yields the entry, and without one
      the computed card is left unchanged. */
  lemma OverridePrecedence(alarm: map<string, Json>, overrides: OverrideTable)
    ensures AlarmCard(alarm, map[]).Ok? ==> AlarmCard(alarm, overrides).Ok?
    ensures AlarmCard(alarm, overrides).Err? ==> AlarmCard(alarm, overrides) == AlarmCard(alarm, map[])
    ensures IsOverriddenAlarm(alarm, overrides) ==>
      AlarmCard(alarm, overrides) == Ok(overrides[OverrideKey(alarm).value])
    ensures !(OverrideKey(alarm).Some? && OverrideKey(alarm).value in overrides) ==>
      AlarmCard(alarm, overrides) == AlarmCard(alarm, map[])
  {
  }

  /** The lookup is case-sensitive: "alarm" misses the "ALARM" entry, yet
      the computed colour and title still say alarm. */
  lemma OverrideIsCaseSensitive()
    ensures AlarmCard(SampleAlarm("alarm"), Overrides).Ok?
    ensures AlarmCard(SampleAlarm("alarm"), Overrides).value.colour == Some(Attention)
    ensures AlarmCard(SampleAlarm("alarm"), Overrides).value.title == "Red Alert - my-alarm-name"
  {
    LowerCaseMissesTable();
    LowerOfAlarm();
    assert "Red Alert - " + "my-alarm-name" == "Red Alert - my-alarm-name";
    var alarm := SampleAlarm("alarm");
    assert IsRenderableAlarm(alarm);
    assert OverrideKey(alarm) == Some(("alarm", "my-alarm-name"));
  }

  /** "alarm" is already in lower case. */
  lemma LowerOfAlarm()
    ensures Lower("alarm") == "alarm"
  {
    assert IsAlarmInAnyCase("alarm");
    LowerIsAlarm("alarm");
  }

  /** Only the exact upper-case spellings are keys of the table. */
  lemma LowerCaseMissesTable()
    ensures ("alarm", "my-alarm-name") !in Overrides
  {
    assert "alarm" != "ALARM" by { assert "alarm"[0] != "ALARM"[0]; }
  }

  /** The exact pair ("ALARM", "my-alarm-name") takes the literal entry. */
  lemma OverrideExactMatch()
    ensures AlarmCard(SampleAlarm("ALARM"), Overrides) == Ok(Overrides[("ALARM", "my-alarm-name")])
  {
    var alarm := SampleAlarm("ALARM");
    assert IsRenderableAlarm(alarm);
    assert OverrideKey(alarm) == Some(("ALARM", "my-alarm-name"));
  }

  /** A table hit needs no rendering of the other fields: an old state that
      is a list still yields the literal entry. */
  lemma OverrideHitIgnoresRepr()
    ensures AlarmCard(SampleAlarm("ALARM")["OldStateValue" := JArr([])], Overrides)
      == Ok(Overrides[("ALARM", "my-alarm-name")])
  {
    var alarm := SampleAlarm("ALARM")["OldStateValue" := JArr([])];
    assert OverrideKey(alarm) == Some(("ALARM", "my-alarm-name"));
    assert IsOverriddenAlarm(alarm, Overrides);
  }

  /** An alarm named "my-alarm-name" that moved from OK to `newState`. */
  function SampleAlarm(newState: string): map<string, Json> {
    map[
      "AlarmName" := JStr("my-alarm-name"),
      "OldStateValue" := JStr("OK"),
      "NewStateValue" := JStr(newState),
      "NewStateReason" := JStr("r")]
  }

  // ---------------------------------------------------------------------------
  // CloudTrail formatter
  // ---------------------------------------------------------------------------

  /** The title of `parse_cloudtrail_event`: when the reason holds a colon,
      the first space-delimited token of its seventh colon-separated segment
      is shown as a fault code; a colon with fewer than seven segments is an
      IndexError (seven segments are six colons, `SegmentsAreColonsPlusOne`).
      The event name is rendered by str(). */
  function CloudTrailTitle(reason: Json, eventName: Json): (r: Result<string>)
    ensures reason.JStr? && ':' !in reason.s && Scalar(eventName) ==>
      r == Ok("Alert - Issue: " + Str(eventName))
    ensures reason.JStr? && ':' in reason.s && |Split(reason.s, ':')| < 7 ==>
      r == Err(IndexError)
    ensures reason.JStr? && |Split(reason.s, ':')| >= 7 && Scalar(eventName) ==>
      r == Ok("Alert - " + FirstToken(Split(reason.s, ':')[6]) + " - Issue: " + Str(eventName))
    ensures reason.JStr? && r.Ok? ==> ':' !in reason.s || |Split(reason.s, ':')| >= 7
    // a reason that is not a str: `in` decides, and only a str can be split
    ensures In(":", reason).Err? ==> r == Err(TypeError)
    ensures In(":", reason) == Ok(false) && Scalar(eventName) ==> r == Ok("Alert - Issue: " + Str(eventName))
    ensures !reason.JStr? && In(":", reason) == Ok(true) ==> r == Err(AttributeError)
  {
    var hasColon :- In(":", reason);
    if hasColon then
      if !reason.JStr? then Err(AttributeError)  // a list or dict has no .split
      else
        var segments := Split(reason.s, ':');
        if |segments| < 7 then
          ContainsChar(reason.s, ':');
          Err(IndexError)
        else
          if !Scalar(eventName) then Err(ReprNotModelled)
          else Ok("Alert - " + FirstToken(segments[6]) + " - Issue: " + Str(eventName))
    else
      ContainsChar(if reason.JStr? then reason.s else "", ':');
      assert reason.JStr? ==> ':' !in reason.s;
      if !Scalar(eventName) then Err(ReprNotModelled)
      else Ok("Alert - Issue: " + Str(eventName))
  }

  /** A reason has at least seven colon-separated segments exactly when it
      holds at least six colons. */
  lemma SegmentsAreColonsPlusOne(reason: string)
    ensures |Split(reason, ':')| >= 7 <==> Count(reason, ':') >= 6
  {
  }

  /** `parse_cloudtrail_event(detail)`: defaults for the missing fields,
      the colour is always Attention, the text is the serialised summary. */
  function ParseCloudTrailEvent(detail: Json, dumps: Serialiser): (r: Result<CardData>)
    ensures !detail.JObj? ==> r == Err(AttributeError)
    ensures r.Ok? ==> r.value.colour == Some(Attention)
    ensures detail.JObj? ==>
      var m := detail.fields;
      var name := Lookup(m, "eventName", JStr("UnknownEvent"));
      var reason := Lookup(m, "errorMessage", JStr("No error message provided"));
      && (r.Ok? <==> CloudTrailTitle(reason, name).Ok?)
      && (r.Err? ==> r == Err(CloudTrailTitle(reason, name).error))
      && (r.Ok? ==> r.value.title == CloudTrailTitle(reason, name).value)
      && (r.Ok? ==> r.value.text == dumps([
            ("Subject", name),
            ("Type", Lookup(m, "eventType", JStr("Unknown"))),
            ("MessageId", Lookup(m, "eventID", JStr("Unknown"))),
            ("Message", reason),
            ("Timestamp", Lookup(m, "eventTime", JStr("Unknown")))]))
  {
    match detail
    case JObj(m) =>
      var name := Lookup(m, "eventName", JStr("UnknownEvent"));
      var reason := Lookup(m, "errorMessage", JStr("No error message provided"));
      var title :- CloudTrailTitle(reason, name);
      Ok(CardData(Some(Attention), title, dumps([
        ("Subject", name),
        ("Type", Lookup(m, "eventType", JStr("Unknown"))),
        ("MessageId", Lookup(m, "eventID", JStr("Unknown"))),
        ("Message", reason),
        ("Timestamp", Lookup(m, "eventTime", JStr("Unknown")))])))
    case _ => Err(AttributeError)  // detail.get on a value that is not a dict
  }

  /** An event detail with none of the fields gets every default. */
  lemma EmptyDetailDefaults(dumps: Serialiser)
    ensures ParseCloudTrailEvent(JObj(map[]), dumps) == Ok(CardData(
      Some(Attention),
      "Alert - Issue: UnknownEvent",
      dumps([
        ("Subject", JStr("UnknownEvent")),
        ("Type", JStr("Unknown")),
        ("MessageId", JStr("Unknown")),
        ("Message", JStr("No error message provided")),
        ("Timestamp", JStr("Unknown"))])))
  {
    DefaultTitle("UnknownEvent");
    DefaultTitleText();
  }

  /** The spelled-out default title. */
  lemma DefaultTitleText()
    ensures "Alert - Issue: " + "UnknownEvent" == "Alert - Issue: UnknownEvent"
  {
  }

  /** The default reason has no colon, so its title carries no fault code. */
  lemma DefaultTitle(name: string)
    ensures CloudTrailTitle(JStr("No error message provided"), JStr(name)) == Ok("Alert - Issue: " + name)
  {
    DefaultReasonHasNoColon();
    NoColonTitle("No error message provided", name);
  }

  /** The default reason holds no colon. */
  lemma DefaultReasonHasNoColon()
    ensures ':' !in "No error message provided"
  {
  }

  /** A reason without a colon gives the plain title. */
  lemma NoColonTitle(reason: string, name: string)
    requires ':' !in reason
    ensures CloudTrailTitle(JStr(reason), JStr(name)) == Ok("Alert - Issue: " + name)
  {
  }

  /** A reason in the usual shape, six colon-free segments and then a
      token, a space and more text, yields that token as the fault code. */
  lemma FaultCodeTitle(segments: seq<string>, token: string, more: string, name: string)
    requires |segments| == 6 && SeparatorFree(segments, ':')
    requires ':' !in token && ':' !in more && ' ' !in token
    ensures CloudTrailTitle(JStr(Join(segments + [token + " " + more], ':')), JStr(name))
      == Ok("Alert - " + token + " - Issue: " + name)
  {
    var parts := segments + [token + " " + more];
    assert SeparatorFree(parts, ':') by {
      assert parts[6] == token + [' '] + more;
    }
    SplitJoin(parts, ':');
    SplitAfterPiece(token, more, ' ');
    assert token + " " + more == token + [' '] + more;
  }

  // ---------------------------------------------------------------------------
  // Generic formatter
  // ---------------------------------------------------------------------------

  /** The metadata of the SNS record in the order the generic text lists it;
      an absent field is null. */
  function RecordSummary(record: map<string, Json>): (fields: Fields)
    ensures |fields| == 6
    ensures forall i :: 0 <= i < 6 ==> fields[i].1 == Lookup(record, fields[i].0, JNull)
    ensures fields[0].0 == "Subject" && fields[1].0 == "Type" && fields[2].0 == "MessageId"
    ensures fields[3].0 == "TopicArn" && fields[4].0 == "Message" && fields[5].0 == "Timestamp"
  {
    var keys := ["Subject", "Type", "MessageId", "TopicArn", "Message", "Timestamp"];
    seq(6, i requires 0 <= i < 6 => (keys[i], Lookup(record, keys[i], JNull)))
  }

  /** The fallback branch: colour Warning, the record's subject (or
      "No Subject") in the title, the record's metadata as text. */
  function GenericCard(record: map<string, Json>, dumps: Serialiser): (r: Result<CardData>)
    ensures r.Ok? ==> r.value.colour == Some(Warning) && r.value.text == dumps(RecordSummary(record))
    ensures "Subject" !in record ==> r.Ok? && r.value.title == "Alert - No Subject"
    ensures "Subject" in record && Scalar(record["Subject"]) ==>
      r.Ok? && r.value.title == "Alert - " + Str(record["Subject"])
    ensures r.Err? <==> "Subject" in record && !Scalar(record["Subject"])
  {
    var subject := Lookup(record, "Subject", JStr("No Subject"));
    if !Scalar(subject) then Err(ReprNotModelled)
    else Ok(CardData(Some(Warning), "Alert - " + Str(subject), dumps(RecordSummary(record))))
  }

  /** `.get` returns a stored None rather than the default: a record whose
      `Subject` is null is titled "Alert - None", not "Alert - No Subject". */
  lemma NullSubjectTitle(record: map<string, Json>, dumps: Serialiser)
    requires "Subject" in record && record["Subject"] == JNull
    ensures GenericCard(record, dumps).Ok?
    ensures GenericCard(record, dumps).value.title == "Alert - None"
  {
    assert "Alert - " + "None" == "Alert - None";
  }

  // ---------------------------------------------------------------------------
  // The handler
  // ---------------------------------------------------------------------------

  /** `event['Records'][0]['Sns']`: only the first record is looked at. */
  function Unwrap(event: Json): (r: Result<Json>)
    ensures !event.JObj? ==> r == Err(TypeError)
    ensures event.JObj? && "Records" !in event.fields ==> r == Err(KeyError("Records"))
    ensures event.JObj? && "Records" in event.fields && event.fields["Records"] == JArr([]) ==>
      r == Err(IndexError)
    ensures (event.JObj? && "Records" in event.fields && event.fields["Records"].JArr?
      && |event.fields["Records"].items| > 0) ==>
      var first := event.fields["Records"].items[0];
      && (first.JObj? && "Sns" in first.fields ==> r == Ok(first.fields["Sns"]))
      && (first.JObj? && "Sns" !in first.fields ==> r == Err(KeyError("Sns")))
      && (!first.JObj? ==> r == Err(TypeError))
  {
    var records :- GetItem(event, "Records");
    var first :- FirstItem(records);
    GetItem(first, "Sns")
  }

  /** The record's `Message` is a str, and its text. */
  predicate HasTextMessage(sns: Json) {
    sns.JObj? && "Message" in sns.fields && sns.fields["Message"].JStr?
  }

  /** The card data the handler computes for an SNS record (lines 76-127):
      the message is decoded without a guard, then routed to one formatter. */
  function CardFor(sns: Json, decode: Decoder, dumps: Serialiser): (r: Result<CardData>)
    ensures !sns.JObj? ==> r == Err(TypeError)
    ensures sns.JObj? && "Message" !in sns.fields ==> r == Err(KeyError("Message"))
    ensures sns.JObj? && "Message" in sns.fields && !sns.fields["Message"].JStr? ==> r == Err(TypeError)
    ensures HasTextMessage(sns) ==>
      var payload := decode(sns.fields["Message"].s);
      && (payload.None? ==> r == Err(JsonDecodeError))
      && (payload.Some? && !payload.value.JObj? ==> r.Err?)
      && (payload.Some? && payload.value.JObj? && "AlarmName" in payload.value.fields ==>
            r == AlarmCard(payload.value.fields, Overrides))
      && (payload.Some? && payload.value.JObj? && "AlarmName" !in payload.value.fields
          && IsCloudTrailEvent(payload.value.fields) ==>
            r == if "detail" in payload.value.fields
                 then ParseCloudTrailEvent(payload.value.fields["detail"], dumps)
                 else Err(KeyError("detail")))
      && (payload.Some? && payload.value.JObj? && "AlarmName" !in payload.value.fields
          && !IsCloudTrailEvent(payload.value.fields) ==>
            r == GenericCard(sns.fields, dumps))
  {
    var message :- GetItem(sns, "Message");
    if !message.JStr? then Err(TypeError)  // json.loads accepts only text
    else match decode(message.s)
      case None => Err(JsonDecodeError)
      case Some(payload) =>
        var branch :- Classify(message.s, payload, decode);
        match branch
        case AlarmBranch(alarm) => AlarmCard(alarm, Overrides)
        case CloudTrailBranch(event) =>
          var detail :- GetItem(JObj(event), "detail");
          ParseCloudTrailEvent(detail, dumps)
        case GenericBranch => GenericCard(sns.fields, dumps)
  }

  /** `lambda_handler` up to the delivery: the Adaptive Card message to post,
      or the exception that ends the invocation before anything is posted. */
  function Handle(event: Json, decode: Decoder, dumps: Serialiser): (r: Result<Json>)
    ensures Unwrap(event).Err? ==> r == Err(Unwrap(event).error)
    ensures Unwrap(event).Ok? ==>
      var data := CardFor(Unwrap(event).value, decode, dumps);
      && (data.Err? ==> r == Err(data.error))
      && (data.Ok? ==>
            && r == Ok(BuildCard(data.value))
            && |Attachments(r.value)| == 1
            && Field(Attachments(r.value)[0], "contentType") == Some(JStr(ContentType))
            && |Body(r.value)| == 2
            && Field(Body(r.value)[0], "text") == Some(JStr(data.value.title))
            && Field(Body(r.value)[0], "color") == Some(JStr(ColourName(data.value)))
            && Field(Body(r.value)[1], "text") == Some(JStr(data.value.text)))
  {
    var sns :- Unwrap(event);
    var data :- CardFor(sns, decode, dumps);
    Ok(BuildCard(data))
  }

  /** Every alarm the handler formats has a colour the palette shows as
      Attention or Good, whatever the override table of the handler. */
  lemma AlarmColours(alarm: map<string, Json>)
    ensures AlarmCard(alarm, Overrides).Ok? ==>
      AlarmCard(alarm, Overrides).value.colour in {Some(Attention), Some(Good)}
  {
  }

  // ---------------------------------------------------------------------------
  // Finding: a Message that is not JSON
  // ---------------------------------------------------------------------------

  /** As written, a plain-text Message ends the invocation with a
      JSONDecodeError, although the generic branch could format it. */
  lemma PlainTextMessageFails(decode: Decoder, dumps: Serialiser)
    requires decode("disk is full") == None
    ensures CardFor(JObj(map["Message" := JStr("disk is full")]), decode, dumps) == Err(JsonDecodeError)
    ensures GenericCard(map["Message" := JStr("disk is full")], dumps).Ok?
  {
  }

  /** The card data with the decode failure caught, as `is_cloudwatch_alarm`
      already does: text that is not JSON takes the generic branch. */
  function CardForCorrected(sns: Json, decode: Decoder, dumps: Serialiser): (r: Result<CardData>)
    ensures HasTextMessage(sns) && decode(sns.fields["Message"].s).None? ==>
      r == GenericCard(sns.fields, dumps)
    ensures !(HasTextMessage(sns) && decode(sns.fields["Message"].s).None?) ==>
      r == CardFor(sns, decode, dumps)
  {
    var message :- GetItem(sns, "Message");
    if message.JStr? && decode(message.s).None? then GenericCard(sns.fields, dumps)
    else CardFor(sns, decode, dumps)
  }

  /** The handler with the corrected decoding. */
  function HandleCorrected(event: Json, decode: Decoder, dumps: Serialiser): (r: Result<Json>)
    ensures Unwrap(event).Err? ==> r == Err(Unwrap(event).error)
    ensures (Unwrap(event).Ok? && HasTextMessage(Unwrap(event).value)
      && decode(Unwrap(event).value.fields["Message"].s).None?
      && GenericCard(Unwrap(event).value.fields, dumps).Ok?) ==>
      r == Ok(BuildCard(GenericCard(Unwrap(event).value.fields, dumps).value))
  {
    var sns :- Unwrap(event);
    var data :- CardForCorrected(sns, decode, dumps);
    Ok(BuildCard(data))
  }
}
