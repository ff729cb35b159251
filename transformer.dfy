/**
 * The Firehose record transformer (`handler` and `fetchTemplates` in
 * firehoseTransformer.mjs). Each inbound record is decoded, unwrapped from
 * an SNS envelope if it has one, classified, rendered through one of four
 * Velocity templates (WhatsApp messages and statuses fanned out first),
 * given partition keys from the first rendered row, put on one line and
 * returned with an outcome: one outbound record per inbound record.
 *
 * The libraries and services the transformer calls are parameters
 * (`Externals`); the environment variables it reads are `Config`.
 */
module FirehoseTransformer {
  import opened JsValue
  import opened SingleLine
  import opened Partition
  import opened Cache
  import opened Expand

  /* ---------------- what the transformer does not define ---------------- */

  /** The foreign functions, as total functions of their inputs:
      - `json5`: what `JSON5.parse` returns for a text that starts like a
        JSON5 value (None when it throws);
      - `parseDate`: the time `Date.parse` gives a string (None for NaN);
      - `parseTemplate`: whether `Velocity.parse` accepts the file that
        `getCachedFile` returned (`false` for a missing key is None);
      - `render`: what `Compile.render` returns for a template and a context
        (None when it throws); the custom method handlers are its business;
      - `decodeBase64`: the UTF-8 text of `Buffer.from(data, 'base64')`;
      - `encodeBase64`: `Buffer.from(text, 'utf-8').toString('base64')`;
      - `fetch`: the object store, as in the template cache. */
  datatype Externals = Externals(
    json5: string -> Option<Value>,
    parseDate: string -> Option<int>,
    parseTemplate: Option<string> -> bool,
    render: (Option<string>, Value) -> Option<string>,
    decodeBase64: string -> string,
    encodeBase64: string -> string,
    fetch: (string, string, int) -> FetchOutcome)

  /** The environment variables the transformer reads. `cacheSeconds` is
      `parseInt(CACHE_EXPIRATION_SECONDS)`, None when that is NaN. */
  datatype Config = Config(
    templatesBucket: string,
    waStatusKey: string, waMessageKey: string, messagingKey: string, sesKey: string,
    cacheSeconds: Option<int>,
    athenaDatabase: string, athenaEventsTable: string, eventsBucket: string, logBucket: string)

  /** A compiled template, known by the file it was parsed from. */
  datatype Compiled = Compiled(file: Option<string>)

  datatype Templates = Templates(waStatus: Compiled, waMessage: Compiled, messaging: Compiled, ses: Compiled)

  /** The characters a JSON5 text may start with, after white space. */
  predicate StartsJson5(c: char)
  {
    c in "{[\"'0123456789-+.INtfn/"
  }

  /** The first character of `s` that is not white space. */
  function FirstSignificant(s: string): (r: Option<char>)
    ensures r.Some? ==> r.value in s && !IsSpace(r.value)
  {
    if s == [] then None else if IsSpace(s[0]) then FirstSignificant(s[1..]) else Some(s[0])
  }

  /** `JSON5.parse(text)`: a text with nothing significant, or one that
      cannot start a JSON5 value (such as "undefined", what `String()` makes
      of a missing value), throws whatever the library does otherwise. */
  function Json5Parse(ext: Externals, text: string): (r: Option<Value>)
    ensures FirstSignificant(text).None? ==> r.None?
    ensures FirstSignificant(text).Some? && !StartsJson5(FirstSignificant(text).value) ==> r.None?
  {
    match FirstSignificant(text)
    case None => None
    case Some(c) => if StartsJson5(c) then ext.json5(text) else None
  }

  lemma Json5RejectsEmptyAndUndefined(ext: Externals)
    ensures Json5Parse(ext, "") == None
    ensures Json5Parse(ext, "undefined") == None
  {
    assert FirstSignificant("undefined") == Some('u') by {
      assert !IsSpace('u');
    }
    assert !StartsJson5('u');
  }

  /* ---------------- the stages of one record ---------------- */

  /** The first `try`: parse the decoded text, and when the result has a
      truthy `Message` (an SNS notification) parse that too. Reading
      `Message` of null throws. */
  function ParseInput(ext: Externals, text: string): (r: Completion<Value>)
    ensures r.Normal? ==> exists source :: Json5Parse(ext, text) == Some(source) && !IsNullish(source)
    ensures Json5Parse(ext, text).None? ==> r.Throw?
    ensures forall source :: Json5Parse(ext, text) == Some(source) && !Truthy(OptGet(source, "Message")) ==>
              r == if IsNullish(source) then Throw else Normal(source)
    ensures forall source :: Json5Parse(ext, text) == Some(source) && Truthy(OptGet(source, "Message")) ==>
              r == match Json5Parse(ext, CoerceToString(OptGet(source, "Message")))
                   case None => Throw
                   case Some(message) => Normal(message)
  {
    match Json5Parse(ext, text)
    case None => Throw
    case Some(source) =>
      if IsNullish(source) then Throw
      else
        var m := Get(source, "Message").value;
        if !Truthy(m) then Normal(source)
        else
          match Json5Parse(ext, CoerceToString(m))
          case None => Throw
          case Some(message) => Normal(message)
  }

  /** The shape of a message, by the first truthy key in priority order. */
  datatype Shape = WhatsApp | MessagingEvent | SesEvent | UnknownShape

  /** `message.whatsAppWebhookEntry`, else `message['messageId']`, else
      `message['mail']`; reading a property of null or undefined throws. */
  function Classify(message: Value): (r: Completion<Shape>)
    ensures r.Throw? <==> IsNullish(message)
    ensures r == Normal(WhatsApp) <==> Truthy(OptGet(message, "whatsAppWebhookEntry"))
    ensures r == Normal(MessagingEvent) <==>
              !Truthy(OptGet(message, "whatsAppWebhookEntry")) && Truthy(OptGet(message, "messageId"))
    ensures r == Normal(SesEvent) <==>
              !Truthy(OptGet(message, "whatsAppWebhookEntry")) && !Truthy(OptGet(message, "messageId"))
              && Truthy(OptGet(message, "mail"))
  {
    if IsNullish(message) then Throw
    else if Truthy(Get(message, "whatsAppWebhookEntry").value) then Normal(WhatsApp)
    else if Truthy(Get(message, "messageId").value) then Normal(MessagingEvent)
    else if Truthy(Get(message, "mail").value) then Normal(SesEvent)
    else Normal(UnknownShape)
  }

  datatype Outcome = Ok | Dropped | ProcessingFailed

  /** `recordType`: not yet set, or the kind of the last unit handled. */
  datatype RecordType = Unset | WhatsAppMessage | WhatsAppStatus | Messaging | Ses | Unknown

  /** The variables the second `try` updates: `result`, `targets`,
      `recordType`. */
  datatype RenderState = RenderState(result: Outcome, targets: seq<string>, recordType: RecordType)

  /** How a fanned-out unit is handled. */
  datatype UnitClass = MessageUnit | StatusUnit(hasId: bool) | OtherUnit

  /** `x > 0` for the values `?.length` can give on the units built here. */
  predicate Positive(v: Value)
  {
    (v.Num? && v.n > 0) || v == Bool(true)
  }

  /** `changes[0]?.value?.messages?.length > 0`, else
      `changes[0]?.value?.statuses?.length > 0` (and then whether
      `statuses[0]?.id` is truthy), else neither. Reading
      `parsedWhatsAppWebhookEntry.changes[0]` throws when one of the first
      two is null or undefined. */
  function ClassifyUnit(u: Value): (r: Completion<UnitClass>)
    ensures r.Throw? <==>
              || IsNullish(u)
              || IsNullish(Get(u, "parsedWhatsAppWebhookEntry").value)
              || IsNullish(Get(Get(u, "parsedWhatsAppWebhookEntry").value, "changes").value)
  {
    match Get(u, "parsedWhatsAppWebhookEntry")
    case Throw => Throw
    case Normal(entry) =>
      match Get(entry, "changes")
      case Throw => Throw
      case Normal(changes) =>
        match Get(changes, "0")
        case Throw => Throw
        case Normal(c0) =>
          var value := OptGet(c0, "value");
          var messages := OptGet(value, "messages");
          var statuses := OptGet(value, "statuses");
          if Positive(OptGet(messages, "length")) then Normal(MessageUnit)
          else if Positive(OptGet(statuses, "length")) then
            // `statuses` is neither null nor undefined here
            Normal(StatusUnit(Truthy(OptGet(Get(statuses, "0").value, "id"))))
          else Normal(OtherUnit)
  }

  /** One turn of the loop over the units. A message or a status with an id
      is rendered and appended; a status without one makes the record
      Dropped, appends "" and sets `recordType` to 'unknown'. */
  function RenderUnit(ext: Externals, tpl: Templates, st: RenderState, u: Value): Completion<RenderState>
  {
    match ClassifyUnit(u)
    case Throw => Throw
    case Normal(c) => RenderClassified(ext, tpl, st, u, c)
  }

  /** One turn of the loop for a unit already classified as `c`. */
  function RenderClassified(ext: Externals, tpl: Templates, st: RenderState, u: Value, c: UnitClass): Completion<RenderState>
  {
    match c
    case MessageUnit =>
      (match ext.render(tpl.waMessage.file, u)
       case None => Throw
       case Some(t) => Normal(RenderState(st.result, st.targets + [t], WhatsAppMessage)))
    case StatusUnit(true) =>
      (match ext.render(tpl.waStatus.file, u)
       case None => Throw
       case Some(t) => Normal(RenderState(st.result, st.targets + [t], WhatsAppStatus)))
    case StatusUnit(false) => Normal(RenderState(Dropped, st.targets + [""], Unknown))
    case OtherUnit => Normal(st)
  }

  /** The loop over the units, from `result = 'Ok'`, no targets and no
      record type; the first exception ends it. */
  function RenderUnitsSpec(ext: Externals, tpl: Templates, units: seq<Value>): Completion<RenderState>
  {
    if units == [] then Normal(RenderState(Ok, [], Unset))
    else
      match RenderUnitsSpec(ext, tpl, units[..|units| - 1])
      case Throw => Throw
      case Normal(st) => RenderUnit(ext, tpl, st, units[|units| - 1])
  }

  /** `message.originalEvent = structuredClone(message)`: the message with
      a copy of itself under `originalEvent`. Values are immutable here, so
      the copy is the message itself. */
  function OriginalEventContext(message: Value): (ctx: Value)
    ensures message.Obj? ==> ctx.Obj? && Get(ctx, "originalEvent") == Normal(message)
    ensures message.Obj? ==> forall k :: k != "originalEvent" ==> Get(ctx, k) == Get(message, k)
  {
    SetProp(message, "originalEvent", message)
  }

  /** The template part of the second `try`, up to the partition step. */
  function TemplateStage(ext: Externals, tpl: Templates, message: Value): (r: Completion<RenderState>)
    ensures Classify(message).Throw? ==> r.Throw?
    // outside WhatsApp: one target, and Ok exactly when the partition step follows
    ensures r.Normal? && Classify(message) != Normal(WhatsApp) ==>
              && |r.value.targets| == 1
              && (r.value.result == Ok <==> r.value.recordType != Unknown)
              && r.value.result != Dropped
    // a messaging event is rendered by the messaging template, with `originalEvent` attached
    ensures Classify(message) == Normal(MessagingEvent) ==>
              var t := ext.render(tpl.messaging.file, OriginalEventContext(message));
              (r.Normal? <==> t.Some?) && (r.Normal? ==> r.value.result == Ok && r.value.targets == [t.value])
    // an SES event is rendered by the SES template, with `originalEvent` attached
    ensures Classify(message) == Normal(SesEvent) ==>
              var t := ext.render(tpl.ses.file, OriginalEventContext(message));
              (r.Normal? <==> t.Some?) && (r.Normal? ==> r.value.result == Ok && r.value.targets == [t.value])
  {
    match Classify(message)
    case Throw => Throw
    case Normal(WhatsApp) => WhatsAppStage(ext, tpl, message)
    case Normal(MessagingEvent) =>
      (match ext.render(tpl.messaging.file, OriginalEventContext(message))
       case None => Throw
       case Some(t) => Normal(RenderState(Ok, [t], Messaging)))
    case Normal(SesEvent) =>
      (match ext.render(tpl.ses.file, OriginalEventContext(message))
       case None => Throw
       case Some(t) => Normal(RenderState(Ok, [t], Ses)))
    case Normal(UnknownShape) => Normal(RenderState(ProcessingFailed, [""], Unknown))
  }

  /** The message a WhatsApp record is rendered from: `parsedWhatsAppWebhookEntry`
      set to the parsed entry, if the entry parses. */
  function WithParsedEntry(ext: Externals, message: Value): (r: Option<Value>)
    ensures var entry := Json5Parse(ext, CoerceToString(OptGet(message, "whatsAppWebhookEntry")));
            r.Some? <==> entry.Some?
    ensures r.Some? && !IsNullish(message) ==> !IsNullish(r.value)
    ensures r.Some? && message.Obj? ==>
              && r.value.Obj?
              && Get(r.value, "parsedWhatsAppWebhookEntry")
                 == Normal(Json5Parse(ext, CoerceToString(OptGet(message, "whatsAppWebhookEntry"))).value)
              && forall k :: k != "parsedWhatsAppWebhookEntry" ==> Get(r.value, k) == Get(message, k)
  {
    match Json5Parse(ext, CoerceToString(OptGet(message, "whatsAppWebhookEntry")))
    case None => None
    case Some(entry) => Some(SetProp(message, "parsedWhatsAppWebhookEntry", entry))
  }

  /** The WhatsApp branch: parse the entry into the message, fan it out,
      and render the units. */
  function WhatsAppStage(ext: Externals, tpl: Templates, message: Value): Completion<RenderState>
    requires !IsNullish(message)
  {
    match WithParsedEntry(ext, message)
    case None => Throw
    case Some(withEntry) =>
      match ExpandSpec(withEntry)
      case Throw => Throw
      case Normal(units) => RenderUnitsSpec(ext, tpl, units)
  }

  /** `new Date(x)` as an epoch-millisecond time after TimeClip, None for an
      invalid date: numbers are taken as they are, null as 0, booleans as 0
      or 1, undefined as NaN, and strings, arrays and objects are turned
      into a string and parsed. */
  function DateOf(ext: Externals, v: Value): (r: Option<int>)
    ensures v.Undefined? ==> r.None?
    ensures v.Null? ==> r == Some(0)
    ensures v.Num? ==> (r.Some? <==> -MaxTimeMs <= v.n <= MaxTimeMs) && (r.Some? ==> r.value == v.n)
    ensures r.Some? ==> -MaxTimeMs <= r.value <= MaxTimeMs
  {
    match v
    case Undefined => None
    case Null => Some(0)
    case Bool(b) => Some(if b then 1 else 0)
    case Num(n) => TimeClip(n)
    case _ =>
      match ext.parseDate(CoerceToString(v))
      case None => None
      case Some(t) => TimeClip(t)
  }

  /** The partition step: parse `targets[0]` (the string "undefined" when
      there is no target) and take the keys of its `timestamp`. */
  function PartitionStage(ext: Externals, targets: seq<string>): (r: Completion<PartitionKeys>)
    ensures (targets == [] || targets[0] == "") ==> r.Throw?
    ensures r.Normal? ==>
              || r.value == PartitionKeys("NaN", "NaN", "NaN", "NaN")
              || (|r.value.month| == 2 && |r.value.day| == 2 && |r.value.hour| == 2)
    ensures r.Normal? ==> exists t :: r.value == KeysOfTime(t)
  {
    Json5RejectsEmptyAndUndefined(ext);
    var first := if targets == [] then "undefined" else targets[0];
    match Json5Parse(ext, first)
    case None => Throw
    case Some(decoded) =>
      if IsNullish(decoded) then Throw
      else Normal(KeysOfTime(DateOf(ext, Get(decoded, "timestamp").value)))
  }

  /** Only the first target is consulted for the partition keys. */
  lemma PartitionUsesFirstTarget(ext: Externals, targets: seq<string>)
    requires targets != []
    ensures PartitionStage(ext, targets) == PartitionStage(ext, [targets[0]])
  {
  }

  /** `targets.map(target => <the single-line step>)`. */
  function MinifyAll(targets: seq<string>): (r: seq<string>)
    ensures |r| == |targets|
    ensures forall i :: 0 <= i < |r| ==> r[i] == ToSingleLine(targets[i])
  {
    seq(|targets|, i requires 0 <= i < |targets| => ToSingleLine(targets[i]))
  }

  /** The calls the transformer makes to the metric and query services. */
  datatype Effect =
    | Metric(errorType: string)
    | AthenaQuery(databaseName: string, sqlQuery: string, outputLocation: string)

  /** The query that registers the partition of a record. */
  function PartitionQuery(cfg: Config, keys: PartitionKeys): Effect
  {
    AthenaQuery(cfg.athenaDatabase,
                AddPartitionQuery(cfg.athenaDatabase, cfg.athenaEventsTable, cfg.eventsBucket, keys),
                "s3://" + cfg.logBucket + "/queryresults")
  }

  /** What one record comes to: `result`, the final `targets`,
      `partition_keys` and the service calls made on its behalf. */
  datatype RecordResult = RecordResult(result: Outcome, targets: seq<string>, keys: Option<PartitionKeys>, effects: seq<Effect>)

  const JsonParsingError: string := "JsonParsingError"
  const VelocityTemplateError: string := "VelocityTemplateError"

  /** What every record comes to, whichever way it goes: at most one
      service call — a metric for a failure, or the partition query — and
      partition keys exactly when the query is made. */
  predicate WellFormedResult(cfg: Config, r: RecordResult)
  {
    && |r.effects| <= 1
    && (r.keys.Some? <==> r.effects != [] && r.effects[0].AthenaQuery?)
    && (r.keys.Some? ==> r.effects == [PartitionQuery(cfg, r.keys.value)])
    && (r.effects != [] && r.effects[0].Metric? ==>
          r.result == ProcessingFailed && r.targets == [] && r.keys.None?
          && r.effects[0].errorType in {JsonParsingError, VelocityTemplateError})
    // a failure without a metric is a message of unknown shape
    && (r.result == ProcessingFailed && r.effects == [] ==> r.targets == [""] && r.keys.None?)
    && (r.keys.Some? ==> r.result != ProcessingFailed)
    && (r.result == ProcessingFailed ==> r.keys.None?)
  }

  /** The body of the loop over the records, given the decoded text: the
      first `try` parses the input, a failure there skips the second. */
  function TransformSpec(ext: Externals, cfg: Config, tpl: Templates, text: string): (r: RecordResult)
    ensures WellFormedResult(cfg, r)
    ensures ParseInput(ext, text).Throw? <==> r.effects == [Metric(JsonParsingError)]
  {
    match ParseInput(ext, text)
    case Throw => RecordResult(ProcessingFailed, [], None, [Metric(JsonParsingError)])
    case Normal(message) => TemplateTrySpec(ext, cfg, tpl, message)
  }

  /** The second `try` for a parsed message: render, and unless the record
      type is 'unknown', take the partition keys, register the partition
      and put the targets on single lines; an exception anywhere gives
      ProcessingFailed, no targets and a metric. */
  function TemplateTrySpec(ext: Externals, cfg: Config, tpl: Templates, message: Value): (r: RecordResult)
    ensures WellFormedResult(cfg, r)
    ensures r.effects != [Metric(JsonParsingError)]
  {
    match TemplateStage(ext, tpl, message)
    case Throw => RecordResult(ProcessingFailed, [], None, [Metric(VelocityTemplateError)])
    case Normal(st) =>
      TemplateStageResult(ext, tpl, message);
      if st.recordType == Unknown then RecordResult(st.result, st.targets, None, [])
      else
        match PartitionStage(ext, st.targets)
        case Throw => RecordResult(ProcessingFailed, [], None, [Metric(VelocityTemplateError)])
        case Normal(keys) => RecordResult(st.result, MinifyAll(st.targets), Some(keys), [PartitionQuery(cfg, keys)])
  }

  /** The unknown shape is the only way the template stage itself decides
      ProcessingFailed, and it then always has record type 'unknown'. */
  lemma TemplateStageResult(ext: Externals, tpl: Templates, message: Value)
    ensures TemplateStage(ext, tpl, message).Normal? ==>
              var st := TemplateStage(ext, tpl, message).value;
              (st.result == ProcessingFailed <==> Classify(message) == Normal(UnknownShape))
              && (st.result == ProcessingFailed ==> st.recordType == Unknown && st.targets == [""])
  {
    match Classify(message)
    case Normal(WhatsApp) => WhatsAppStageResult(ext, tpl, message);
    case _ =>
  }

  lemma WhatsAppStageResult(ext: Externals, tpl: Templates, message: Value)
    requires !IsNullish(message)
    ensures WhatsAppStage(ext, tpl, message).Normal? ==> WhatsAppStage(ext, tpl, message).value.result != ProcessingFailed
  {
    match WithParsedEntry(ext, message)
    case None =>
    case Some(withEntry) => ExpandedNeverFails(ext, tpl, withEntry);
  }

  lemma ExpandedNeverFails(ext: Externals, tpl: Templates, withEntry: Value)
    requires !IsNullish(withEntry)
    ensures match ExpandSpec(withEntry)
            case Throw => true
            case Normal(units) => RenderUnitsSpec(ext, tpl, units).Normal? ==> RenderUnitsSpec(ext, tpl, units).value.result != ProcessingFailed
  {
    if ExpandSpec(withEntry).Normal? {
      RenderUnitsNeverFails(ext, tpl, ExpandSpec(withEntry).value);
    }
  }

  /** Rendering units never sets ProcessingFailed. */
  lemma {:induction false} RenderUnitsNeverFails(ext: Externals, tpl: Templates, units: seq<Value>)
    ensures RenderUnitsSpec(ext, tpl, units).Normal? ==> RenderUnitsSpec(ext, tpl, units).value.result != ProcessingFailed
  {
    if units != [] {
      RenderUnitsNeverFails(ext, tpl, units[..|units| - 1]);
    }
  }

  datatype InboundRecord = InboundRecord(recordId: string, data: string)

  datatype OutboundRecord = OutboundRecord(recordId: string, result: Outcome, data: string, partitionKeys: Option<PartitionKeys>)

  /** All targets joined with no separator (`targets.join('')`). */
  function Concat(ts: seq<string>): string
  {
    if ts == [] then "" else Concat(ts[..|ts| - 1]) + ts[|ts| - 1]
  }

  /** A failed record has no target, or the single empty one of an
      unknown shape: its payload is empty. */
  lemma FailedPayloadEmpty(cfg: Config, r: RecordResult)
    requires WellFormedResult(cfg, r)
    ensures r.result == ProcessingFailed ==> Concat(r.targets) == ""
  {
    if r.result == ProcessingFailed && r.targets != [] {
      assert r.targets == [""];
      assert Concat(r.targets) == Concat([]) + "";
    }
  }

  /** The outbound record for an inbound record, and the service calls. */
  function ProcessRecordSpec(ext: Externals, cfg: Config, tpl: Templates, rec: InboundRecord): (r: (OutboundRecord, seq<Effect>))
    ensures r.0.recordId == rec.recordId
    // a failed record carries an empty payload and no partition keys
    ensures r.0.result == ProcessingFailed ==> r.0.data == ext.encodeBase64("") && r.0.partitionKeys.None?
    // partition keys exactly when the partition query is made
    ensures r.0.partitionKeys.Some? <==> r.1 != [] && r.1[0].AthenaQuery?
  {
    var r := TransformSpec(ext, cfg, tpl, ext.decodeBase64(rec.data));
    FailedPayloadEmpty(cfg, r);
    (OutboundRecord(rec.recordId, r.result, ext.encodeBase64(Concat(r.targets)), r.keys), r.effects)
  }

  /* ---------------- properties of one record ---------------- */

  /** The partition step always fails without a first target, or when the
      first target is empty (a dropped status). */
  lemma PartitionNeedsFirstTarget(ext: Externals, targets: seq<string>)
    requires targets == [] || targets[0] == ""
    ensures PartitionStage(ext, targets).Throw?
  {
    Json5RejectsEmptyAndUndefined(ext);
  }

  /** A WhatsApp record whose entry fans out to no unit at all fails: with
      no target, `JSON5.parse(undefined)` throws in the partition step. */
  lemma WhatsAppWithoutUnitsFails(ext: Externals, cfg: Config, tpl: Templates, text: string)
    requires ParseInput(ext, text).Normal?
    requires var message := ParseInput(ext, text).value;
      && Classify(message) == Normal(WhatsApp)
      && WithParsedEntry(ext, message).Some?
      && !IsNullish(WithParsedEntry(ext, message).value)
      && ExpandSpec(WithParsedEntry(ext, message).value) == Normal([])
    ensures TransformSpec(ext, cfg, tpl, text) == RecordResult(ProcessingFailed, [], None, [Metric(VelocityTemplateError)])
  {
    PartitionNeedsFirstTarget(ext, []);
  }

  /** A record whose first rendered target is empty (its first unit was a
      status without an id) fails unless a later dropped status left the
      record type 'unknown': the partition step parses "". */
  lemma DroppedFirstFails(ext: Externals, cfg: Config, tpl: Templates, text: string)
    requires ParseInput(ext, text).Normal?
    requires var st := TemplateStage(ext, tpl, ParseInput(ext, text).value);
      st.Normal? && st.value.recordType != Unknown && st.value.targets != [] && st.value.targets[0] == ""
    ensures TransformSpec(ext, cfg, tpl, text) == RecordResult(ProcessingFailed, [], None, [Metric(VelocityTemplateError)])
  {
    PartitionNeedsFirstTarget(ext, TemplateStage(ext, tpl, ParseInput(ext, text).value).value.targets);
  }

  /** One turn of the unit loop: the record becomes Dropped by a status
      without an id and then stays so; a message or a status adds one target
      and keeps every earlier one. */
  lemma RenderUnitStep(ext: Externals, tpl: Templates, st: RenderState, u: Value, c: UnitClass)
    requires RenderClassified(ext, tpl, st, u, c).Normal?
    ensures var r := RenderClassified(ext, tpl, st, u, c).value;
      && (r.result == Dropped <==> st.result == Dropped || c == StatusUnit(false))
      && (r.result == ProcessingFailed ==> st.result == ProcessingFailed)
      && (r.recordType == Unknown ==> c == StatusUnit(false) || st.recordType == Unknown)
      && (c.OtherUnit? ==> r == st)
      && (!c.OtherUnit? ==> |r.targets| == |st.targets| + 1 && r.targets[..|st.targets|] == st.targets)
      && (c == StatusUnit(false) ==> r.targets[|st.targets|] == "")
      && (c == MessageUnit ==> r.targets[|st.targets|] == ext.render(tpl.waMessage.file, u).value)
      && (c == StatusUnit(true) ==> r.targets[|st.targets|] == ext.render(tpl.waStatus.file, u).value)
  {
  }

  /** A status without an id, which the loop drops. */
  predicate IsDroppedStatus(u: Value)
  {
    ClassifyUnit(u) == Normal(StatusUnit(false))
  }

  /** The record is Dropped exactly when one of its units is a status
      without an id — whatever comes after it — and the record type is
      'unknown' only if a dropped status was the last unit handled. */
  lemma {:induction false} DroppedIffSomeStatusWithoutId(ext: Externals, tpl: Templates, units: seq<Value>)
    requires RenderUnitsSpec(ext, tpl, units).Normal?
    ensures var st := RenderUnitsSpec(ext, tpl, units).value;
      && (st.result == Dropped <==> exists i :: 0 <= i < |units| && IsDroppedStatus(units[i]))
      && st.result != ProcessingFailed
      && (st.recordType == Unknown ==> st.result == Dropped)
  {
    if units != [] {
      var init := units[..|units| - 1];
      var last := units[|units| - 1];
      DroppedIffSomeStatusWithoutId(ext, tpl, init);
      var st0 := RenderUnitsSpec(ext, tpl, init).value;
      assert RenderUnitsSpec(ext, tpl, units) == RenderClassified(ext, tpl, st0, last, ClassifyUnit(last).value);
      RenderUnitStep(ext, tpl, st0, last, ClassifyUnit(last).value);
      var st := RenderUnitsSpec(ext, tpl, units).value;
      assert st.result == Dropped <==> st0.result == Dropped || IsDroppedStatus(last);
      ExistsSplit(units, init, IsDroppedStatus);
    }
  }

  lemma ExistsSplit<T>(xs: seq<T>, init: seq<T>, p: T -> bool)
    requires xs != [] && init == xs[..|xs| - 1]
    ensures (exists i :: 0 <= i < |xs| && p(xs[i]))
        <==> (exists i :: 0 <= i < |init| && p(init[i])) || p(xs[|xs| - 1])
  {
    if i :| 0 <= i < |xs| && p(xs[i]) {
      if i < |init| {
        assert init[i] == xs[i];
      }
    }
    if i :| 0 <= i < |init| && p(init[i]) {
      assert xs[i] == init[i];
    }
  }

  /** The target a unit of the loop contributes: the message template's
      render for a message, the status template's for a status with an id,
      and "" for a status without one. */
  predicate TargetFits(ext: Externals, tpl: Templates, u: Value, t: string)
  {
    match ClassifyUnit(u)
    case Normal(MessageUnit) => ext.render(tpl.waMessage.file, u).Some? && t == ext.render(tpl.waMessage.file, u).value
    case Normal(StatusUnit(true)) => ext.render(tpl.waStatus.file, u).Some? && t == ext.render(tpl.waStatus.file, u).value
    case Normal(StatusUnit(false)) => t == ""
    case _ => false
  }

  /** The target one turn of the loop appends is the one its unit fits. */
  lemma LastTargetFits(ext: Externals, tpl: Templates, st: RenderState, u: Value)
    requires ClassifyUnit(u).Normal? && !ClassifyUnit(u).value.OtherUnit?
    requires RenderClassified(ext, tpl, st, u, ClassifyUnit(u).value).Normal?
    ensures var r := RenderClassified(ext, tpl, st, u, ClassifyUnit(u).value).value;
      && |r.targets| == |st.targets| + 1
      && r.targets[..|st.targets|] == st.targets
      && TargetFits(ext, tpl, u, r.targets[|st.targets|])
  {
    RenderUnitStep(ext, tpl, st, u, ClassifyUnit(u).value);
  }

  /** Each unit that is a message or a status adds exactly one target, in
      unit order: the render of that unit by the message or the status
      template, or "" for a status without an id; targets once added are
      never changed. */
  lemma {:induction false} RenderUnitsTargets(ext: Externals, tpl: Templates, units: seq<Value>)
    requires RenderUnitsSpec(ext, tpl, units).Normal?
    requires forall i :: 0 <= i < |units| ==> ClassifyUnit(units[i]).Normal? && !ClassifyUnit(units[i]).value.OtherUnit?
    ensures var st := RenderUnitsSpec(ext, tpl, units).value;
      && |st.targets| == |units|
      && forall i :: 0 <= i < |units| ==> TargetFits(ext, tpl, units[i], st.targets[i])
  {
    if units != [] {
      var init := units[..|units| - 1];
      RenderUnitsTargets(ext, tpl, init);
      var st := RenderUnitsSpec(ext, tpl, units).value;
      var st0 := RenderUnitsSpec(ext, tpl, init).value;
      var last := units[|units| - 1];
      assert RenderUnitsSpec(ext, tpl, units) == RenderClassified(ext, tpl, st0, last, ClassifyUnit(last).value);
      LastTargetFits(ext, tpl, st0, last);
      PointwiseSnoc(units, st0.targets, st.targets, (u, t) => TargetFits(ext, tpl, u, t));
    }
  }

  /** A relation that holds pointwise on the prefixes and at the last
      position holds pointwise on the whole. */
  lemma PointwiseSnoc<T, U>(xs: seq<T>, ys0: seq<U>, ys: seq<U>, p: (T, U) -> bool)
    requires xs != [] && |ys0| == |xs| - 1 && |ys| == |xs|
    requires ys[..|ys0|] == ys0
    requires forall i :: 0 <= i < |ys0| ==> p(xs[..|xs| - 1][i], ys0[i])
    requires p(xs[|xs| - 1], ys[|ys0|])
    ensures forall i :: 0 <= i < |xs| ==> p(xs[i], ys[i])
  {
    forall i | 0 <= i < |xs|
      ensures p(xs[i], ys[i])
    {
      if i < |ys0| {
        assert xs[..|xs| - 1][i] == xs[i];
        assert ys[i] == ys0[i];
      }
    }
  }

  /** The fanned-out units are handled by what they carry: a unit carrying
      a message is a message, a unit carrying a status is a status, with an
      id exactly when `status?.id` is truthy. */
  lemma ExpandedUnitClass(u: Value, base: seq<(string, Value)>, id: Value, c: Carried)
    requires KeysOf(base) == BaseKeys
    requires UnitShape(u, base, id, c)
    ensures ClassifyUnit(u) == Normal(if c.isMessage then MessageUnit else StatusUnit(Truthy(OptGet(c.item, "id"))))
  {
    var v := UnitPath(u, base, id, c);
    Singleton(c.item);
    LookupOfThree(v.fields, "messages");
    LookupOfThree(v.fields, "statuses");
  }

  /** Looking a name up among two properties. */
  lemma LookupOfTwo(fs: seq<(string, Value)>, k: string)
    requires |fs| == 2
    ensures Lookup(fs, k) == if fs[0].0 == k then fs[0].1 else if fs[1].0 == k then fs[1].1 else Undefined
  {
    assert fs[1..][1..] == [];
  }

  /** Looking a name up among three properties. */
  lemma LookupOfThree(fs: seq<(string, Value)>, k: string)
    requires |fs| == 3
    ensures Lookup(fs, k) == if fs[0].0 == k then fs[0].1 else if fs[1].0 == k then fs[1].1
                             else if fs[2].0 == k then fs[2].1 else Undefined
  {
    assert fs[1..][1..] == fs[2..] && fs[2..][1..] == [];
    assert Lookup(fs[2..], k) == if fs[2].0 == k then fs[2].1 else Undefined;
    assert Lookup(fs[1..], k) == if fs[1].0 == k then fs[1].1 else Lookup(fs[2..], k);
  }

  /** The reads `parsedWhatsAppWebhookEntry.changes[0]?.value` of a unit. */
  lemma UnitPath(u: Value, base: seq<(string, Value)>, id: Value, c: Carried) returns (v: Value)
    requires KeysOf(base) == BaseKeys
    requires UnitShape(u, base, id, c)
    ensures var e := u.fields[4].1;
      && Get(u, "parsedWhatsAppWebhookEntry") == Normal(e)
      && Get(e, "changes") == Normal(e.fields[0].1)
      && Get(e.fields[0].1, "0") == Normal(e.fields[0].1.items[0])
      && OptGet(e.fields[0].1.items[0], "value") == v
      && v == e.fields[0].1.items[0].fields[1].1
  {
    UnitEntry(u, base, id, c);
    var e := u.fields[4].1;
    var ch := e.fields[0].1.items[0];
    Singleton(ch);
    assert e.fields[0].1 == Arr([ch]);
    v := ch.fields[1].1;
    LookupOfTwo(ch.fields, "value");
  }

  /** The parsed entry of a unit comes after the four base properties. */
  lemma UnitEntry(u: Value, base: seq<(string, Value)>, id: Value, c: Carried)
    requires KeysOf(base) == BaseKeys
    requires UnitShape(u, base, id, c)
    ensures Get(u, "parsedWhatsAppWebhookEntry") == Normal(u.fields[4].1)
  {
    var fs := u.fields;
    assert fs[..4] == base;
    LookupAfter(fs, 4, "parsedWhatsAppWebhookEntry");
    assert fs[4..][1..] == [];
  }

  lemma Singleton(x: Value)
    ensures Get(Arr([x]), "0") == Normal(x)
    ensures Get(Arr([x]), "length") == Normal(Num(1))
  {
    assert NatToDecimal(0) == "0";
    IndexNameRoundTrip(0);
  }

  /** Looking a name up past a prefix that does not hold it. */
  lemma {:induction false} LookupAfter(fs: seq<(string, Value)>, n: nat, k: string)
    requires n <= |fs| && k !in KeysOf(fs[..n])
    ensures Lookup(fs, k) == Lookup(fs[n..], k)
    decreases n
  {
    if n > 0 {
      assert fs[0].0 == KeysOf(fs[..n])[0];
      assert KeysOf(fs[1..][..n - 1]) == KeysOf(fs[..n])[1..];
      LookupAfter(fs[1..], n - 1, k);
      assert fs[1..][n - 1..] == fs[n..];
    }
  }

  /* ---------------- the record loop, step by step ---------------- */

  lemma {:induction false} RenderThrowPersists(ext: Externals, tpl: Templates, units: seq<Value>, k: nat)
    requires k <= |units| && RenderUnitsSpec(ext, tpl, units[..k]).Throw?
    ensures RenderUnitsSpec(ext, tpl, units).Throw?
    decreases |units| - k
  {
    if k < |units| {
      assert units[..k + 1][..k] == units[..k];
      RenderThrowPersists(ext, tpl, units, k + 1);
    } else {
      assert units[..k] == units;
    }
  }

  /** The loop over the fanned-out units, updating `result`, `targets` and
      `recordType`; an exception leaves it. It computes `RenderUnitsSpec`,
      through which the rest of the record's handling is stated. */
  method RenderUnits(ext: Externals, tpl: Templates, units: seq<Value>) returns (r: Completion<RenderState>)
    ensures r == RenderUnitsSpec(ext, tpl, units)
  {
    var result := Ok;
    var targets: seq<string> := [];
    var recordType := Unset;
    for i := 0 to |units|
      invariant RenderUnitsSpec(ext, tpl, units[..i]) == Normal(RenderState(result, targets, recordType))
    {
      var u := units[i];
      assert units[..i + 1][..i] == units[..i];
      assert RenderUnitsSpec(ext, tpl, units[..i + 1]) == RenderUnit(ext, tpl, RenderState(result, targets, recordType), u);
      var c := ClassifyUnit(u);
      if c.Throw? {
        RenderThrowPersists(ext, tpl, units, i + 1);
        return Throw;
      }
      match c.value {
        case MessageUnit =>
          var t := ext.render(tpl.waMessage.file, u);
          if t.None? {
            RenderThrowPersists(ext, tpl, units, i + 1);
            return Throw;
          }
          recordType := WhatsAppMessage;
          targets := targets + [t.value];
        case StatusUnit(hasId) =>
          if hasId {
            var t := ext.render(tpl.waStatus.file, u);
            if t.None? {
              RenderThrowPersists(ext, tpl, units, i + 1);
              return Throw;
            }
            recordType := WhatsAppStatus;
            targets := targets + [t.value];
          } else {
            recordType := Unknown;
            result := Dropped;
            targets := targets + [""];
          }
        case OtherUnit =>
      }
    }
    assert units[..|units|] == units;
    r := Normal(RenderState(result, targets, recordType));
  }

  /* ---------------- the batch and the compile-once slots ---------------- */

  /** The four module-level compiled templates; None until compiled. */
  datatype Slots = Slots(waStatus: Option<Compiled>, waMessage: Option<Compiled>,
                         messaging: Option<Compiled>, ses: Option<Compiled>)

  predicate AllCompiled(s: Slots)
  {
    s.waStatus.Some? && s.waMessage.Some? && s.messaging.Some? && s.ses.Some?
  }

  /** One `if (!slot) { file = await getCachedFile(…); slot = new
      Compile(Velocity.parse(file)) }` block: whether it completed, the
      slot, and the cache. */
  function FillSlot(ext: Externals, cfg: Config, entries: map<string, CacheEntry>, slot: Option<Compiled>,
                    key: string, now: int): (r: (bool, Option<Compiled>, map<string, CacheEntry>))
    ensures slot.Some? ==> r == (true, slot, entries)
    ensures r.0 <==> r.1.Some?
    ensures r.1.Some? && slot.None? ==>
              var step := CachedFileStep(entries, cfg.templatesBucket, key, now, cfg.cacheSeconds, ext.fetch);
              step.0.Normal? && r.1.value.file == step.0.value && ext.parseTemplate(step.0.value)
  {
    if slot.Some? then (true, slot, entries)
    else
      var (file, next) := CachedFileStep(entries, cfg.templatesBucket, key, now, cfg.cacheSeconds, ext.fetch);
      if file.Throw? || !ext.parseTemplate(file.value) then (false, slot, next)
      else (true, Some(Compiled(file.value)), next)
  }

  /** `fetchTemplates()`: the four blocks in order; the first failure
      propagates and leaves the later slots as they were. */
  function FetchTemplatesSpec(ext: Externals, cfg: Config, entries: map<string, CacheEntry>, slots: Slots, now: int)
    : (r: (bool, Slots, map<string, CacheEntry>))
    // a compiled template is never compiled again
    ensures slots.waStatus.Some? ==> r.1.waStatus == slots.waStatus
    ensures slots.waMessage.Some? ==> r.1.waMessage == slots.waMessage
    ensures slots.messaging.Some? ==> r.1.messaging == slots.messaging
    ensures slots.ses.Some? ==> r.1.ses == slots.ses
    // on success every template is compiled; on failure one is still missing
    ensures r.0 <==> AllCompiled(r.1)
  {
    var (ok1, s1, e1) := FillSlot(ext, cfg, entries, slots.waStatus, cfg.waStatusKey, now);
    if !ok1 then (false, slots.(waStatus := s1), e1)
    else
      var (ok2, s2, e2) := FillSlot(ext, cfg, e1, slots.waMessage, cfg.waMessageKey, now);
      if !ok2 then (false, slots.(waStatus := s1, waMessage := s2), e2)
      else
        var (ok3, s3, e3) := FillSlot(ext, cfg, e2, slots.messaging, cfg.messagingKey, now);
        if !ok3 then (false, slots.(waStatus := s1, waMessage := s2, messaging := s3), e3)
        else
          var (ok4, s4, e4) := FillSlot(ext, cfg, e3, slots.ses, cfg.sesKey, now);
          (ok4, Slots(s1, s2, s3, s4), e4)
  }

  /** A warm instance, with every template compiled, neither reads the
      cache nor fetches, whatever the time: cache expiry never leads to a
      recompilation. */
  lemma WarmInstanceNeverRecompiles(ext: Externals, cfg: Config, entries: map<string, CacheEntry>, slots: Slots, now: int)
    requires AllCompiled(slots)
    ensures FetchTemplatesSpec(ext, cfg, entries, slots, now) == (true, slots, entries)
  {
  }

  /** After a successful `fetchTemplates`, every template came from the
      cache step for its own key. */
  function TemplatesOf(s: Slots): Templates
    requires AllCompiled(s)
  {
    Templates(s.waStatus.value, s.waMessage.value, s.messaging.value, s.ses.value)
  }

  /** `f` applied to each record of a batch, in order. */
  function MapRecords(f: InboundRecord -> OutboundRecord, records: seq<InboundRecord>): seq<OutboundRecord>
  {
    if records == [] then []
    else MapRecords(f, records[..|records| - 1]) + [f(records[|records| - 1])]
  }

  lemma {:induction false} MapRecordsKeepsIds(f: InboundRecord -> OutboundRecord, records: seq<InboundRecord>)
    requires forall rec :: f(rec).recordId == rec.recordId
    ensures var out := MapRecords(f, records);
      |out| == |records| && forall i :: 0 <= i < |records| ==> out[i].recordId == records[i].recordId
  {
    if records != [] {
      var init := records[..|records| - 1];
      MapRecordsKeepsIds(f, init);
      var out := MapRecords(f, records);
      forall i | 0 <= i < |records|
        ensures out[i].recordId == records[i].recordId
      {
        if i < |init| {
          assert out[i] == MapRecords(f, init)[i] && records[i] == init[i];
        } else {
          assert out[i] == f(records[i]);
        }
      }
    }
  }

  /** The outbound records of a batch, one per inbound record. */
  function BatchOutputs(ext: Externals, cfg: Config, tpl: Templates, records: seq<InboundRecord>): seq<OutboundRecord>
  {
    MapRecords(rec => ProcessRecordSpec(ext, cfg, tpl, rec).0, records)
  }

  /** Each outbound record carries the id of its inbound record. */
  lemma ProcessRecordKeepsId(ext: Externals, cfg: Config, tpl: Templates, rec: InboundRecord)
    ensures ProcessRecordSpec(ext, cfg, tpl, rec).0.recordId == rec.recordId
  {
  }

  /** One outbound record per inbound record, in order, under the same
      record id, as the delivery stream requires. */
  lemma BatchKeepsRecordIds(ext: Externals, cfg: Config, tpl: Templates, records: seq<InboundRecord>)
    ensures var out := BatchOutputs(ext, cfg, tpl, records);
      |out| == |records| && forall i :: 0 <= i < |records| ==> out[i].recordId == records[i].recordId
  {
    forall rec | true
      ensures ProcessRecordSpec(ext, cfg, tpl, rec).0.recordId == rec.recordId
    {
      ProcessRecordKeepsId(ext, cfg, tpl, rec);
    }
    MapRecordsKeepsIds(rec => ProcessRecordSpec(ext, cfg, tpl, rec).0, records);
  }

  /** The service calls of a batch, record after record. */
  function BatchEffects(ext: Externals, cfg: Config, tpl: Templates, records: seq<InboundRecord>): seq<Effect>
  {
    if records == [] then []
    else BatchEffects(ext, cfg, tpl, records[..|records| - 1]) + ProcessRecordSpec(ext, cfg, tpl, records[|records| - 1]).1
  }

  lemma BatchStep(ext: Externals, cfg: Config, tpl: Templates, records: seq<InboundRecord>, i: nat)
    requires i < |records|
    ensures BatchOutputs(ext, cfg, tpl, records[..i + 1])
            == BatchOutputs(ext, cfg, tpl, records[..i]) + [ProcessRecordSpec(ext, cfg, tpl, records[i]).0]
    ensures BatchEffects(ext, cfg, tpl, records[..i + 1])
            == BatchEffects(ext, cfg, tpl, records[..i]) + ProcessRecordSpec(ext, cfg, tpl, records[i]).1
  {
    assert records[..i + 1][..i] == records[..i];
  }

  /** The loop over `event.records`, in order. */
  method TransformBatch(ext: Externals, cfg: Config, tpl: Templates, records: seq<InboundRecord>)
    returns (transformed: seq<OutboundRecord>, effects: seq<Effect>)
    ensures transformed == BatchOutputs(ext, cfg, tpl, records)
    ensures effects == BatchEffects(ext, cfg, tpl, records)
  {
    transformed, effects := [], [];
    for i := 0 to |records|
      invariant transformed == BatchOutputs(ext, cfg, tpl, records[..i])
      invariant effects == BatchEffects(ext, cfg, tpl, records[..i])
    {
      var (out, recordEffects) := ProcessRecordSpec(ext, cfg, tpl, records[i]);
      BatchStep(ext, cfg, tpl, records, i);
      transformed := transformed + [out];
      effects := effects + recordEffects;
    }
    assert records[..|records|] == records;
  }

  /** A warm or cold instance of the transformer function. */
  class Transformer {
    const cfg: Config
    const ext: Externals
    const cache: TemplateCache
    var waStatusCompile: Option<Compiled>
    var waMessageCompile: Option<Compiled>
    var messagingCompile: Option<Compiled>
    var sesCompile: Option<Compiled>

    function CompileSlots(): Slots
      reads this
    {
      Slots(waStatusCompile, waMessageCompile, messagingCompile, sesCompile)
    }

    /** A cold start: an empty cache and nothing compiled. */
    constructor(cfg: Config, ext: Externals)
      ensures this.cfg == cfg && this.ext == ext
      ensures fresh(cache) && cache.entries == map[]
      ensures CompileSlots() == Slots(None, None, None, None)
    {
      this.cfg := cfg;
      this.ext := ext;
      cache := new TemplateCache();
      waStatusCompile, waMessageCompile, messagingCompile, sesCompile := None, None, None, None;
    }

    /** One compile-once block of `fetchTemplates`. */
    method Compile(slot: Option<Compiled>, key: string, now: int) returns (ok: bool, filled: Option<Compiled>)
      modifies cache
      ensures (ok, filled, cache.entries) == FillSlot(ext, cfg, old(cache.entries), slot, key, now)
    {
      if slot.Some? {
        return true, slot;
      }
      var file := cache.GetCachedFile(cfg.templatesBucket, key, now, cfg.cacheSeconds, ext.fetch);
      if file.Throw? || !ext.parseTemplate(file.value) {
        return false, slot;
      }
      ok, filled := true, Some(Compiled(file.value));
    }

    /** `fetchTemplates()`, with `now` standing for the clock. */
    method FetchTemplates(now: int) returns (ok: bool)
      modifies this, cache
      ensures (ok, CompileSlots(), cache.entries) == FetchTemplatesSpec(ext, cfg, old(cache.entries), old(CompileSlots()), now)
    {
      ok, waStatusCompile := Compile(waStatusCompile, cfg.waStatusKey, now);
      if !ok {
        return;
      }
      ok, waMessageCompile := Compile(waMessageCompile, cfg.waMessageKey, now);
      if !ok {
        return;
      }
      ok, messagingCompile := Compile(messagingCompile, cfg.messagingKey, now);
      if !ok {
        return;
      }
      ok, sesCompile := Compile(sesCompile, cfg.sesKey, now);
    }

    /** `handler(event)`: compile what is missing, then transform the
      records in order. A failure to compile rejects the whole invocation,
      before any record is looked at. */
    method Handle(records: seq<InboundRecord>, now: int) returns (r: Completion<seq<OutboundRecord>>, effects: seq<Effect>)
      modifies this, cache
      ensures var (ok, slots, entries) := FetchTemplatesSpec(ext, cfg, old(cache.entries), old(CompileSlots()), now);
        && CompileSlots() == slots && cache.entries == entries
        && (r.Normal? <==> ok)
        && (r.Throw? ==> effects == [])
        && (r.Normal? ==> r.value == BatchOutputs(ext, cfg, TemplatesOf(slots), records)
                          && effects == BatchEffects(ext, cfg, TemplatesOf(slots), records))
    {
      var ok := FetchTemplates(now);
      if !ok {
        return Throw, [];
      }
      var transformed;
      transformed, effects := TransformBatch(ext, cfg, TemplatesOf(CompileSlots()), records);
      r := Normal(transformed);
    }
  }
}
