# Firehose record transformer — a Dafny model

This project models the record transformer of the engagement database. A
Lambda function sits between an Amazon Data Firehose delivery stream and
the S3 event lake. It receives a batch of base64 records. For each record
it:

- decodes the record and parses it with JSON5;
- unwraps an SNS envelope when there is one;
- classifies the message as a WhatsApp webhook entry, an End User
  Messaging event, an SES event, or none of these;
- fans a WhatsApp entry out into one unit per status and per message;
- renders each unit through one of four Velocity templates;
- derives the `year/month/day/hour` partition keys from the first
  rendered row and registers the partition with Athena;
- puts every row on one line;
- returns one outbound record under the same record id, with the outcome
  `Ok`, `Dropped` or `ProcessingFailed`.

The four templates are compiled once per warm instance. They are read
through a small time-limited cache of S3 objects. The templates call the
custom method handlers of the extension registry (`toEscapedJson`,
`toJson`, `retrieveItemFromRaw`, `convertTime`, `formatPhoneNumber`,
`fetchAccountId`, `determineChannel` and `formatSESTags`).

Modules:

- `JsValue` (js_value.dfy): the JavaScript values the code handles. It
  models JS exceptions as `Completion<T>`, property reads that throw on
  `null`/`undefined`, optional chaining, truthiness, integer-to-decimal
  text, `String(x)` and `JSON.stringify`.
- `Cache` (template_cache.dfy): `getCachedFile`. The class
  `TemplateCache` holds the module-level dictionary.
- `Expand` (expand.dfy): `expandJsonEvents`. It is a specification
  function plus the two nested `forEach` loops as methods.
- `SingleLine` (single_line.dfy): the three regular-expression
  replacements that make a rendered row single-line JSON.
- `Partition` (partition.dfy): the UTC calendar behind
  `getFullYear/getMonth/getDate/getHours`, the partition keys, and the
  `ALTER TABLE … ADD IF NOT EXISTS PARTITION` statement.
- `Extensions` (extensions.dfy): the custom method handlers and the
  lookup by name that the template engine performs.
- `FirehoseTransformer` (transformer.dfy) holds the handler:
  - each record as a specification (`TransformSpec`), with methods for
    the loops;
  - the compile-once template slots;
  - the class `Transformer`, which models a Lambda instance: its cache,
    its four compiled templates, and `Handle`.

Libraries and services are parameters of the model (`Externals`):
JSON5 and `JSON.parse`, Velocity's parser and renderer, `Date` string
parsing, base64 and S3 `getObject`. The environment variables are a
`Config`. The service calls the handler makes are returned as a sequence
of `Effect`s: the CloudWatch error metric and the Athena query.

Behaviour of the code worth knowing:

- A WhatsApp entry that fans out to no unit at all ends in
  `ProcessingFailed` with a `VelocityTemplateError` metric: no target
  exists, `recordType` is still unset, and `JSON5.parse(targets[0])` is
  `JSON5.parse(undefined)`, which throws.
  See `WhatsAppWithoutUnitsFails`.
- A status without an id gives the outcome `Dropped`. That does not
  reach the partition step, but only when it is the *last* unit,
  because `recordType` is reset by every unit. When it is the *first*
  unit of a record whose last unit is rendered, the empty first target
  makes the partition step throw and the record fails. See
  `DroppedFirstFails`.
- Once a status without an id is met, the record stays `Dropped`: no
  later unit resets the outcome. Its payload holds every target rendered
  in the record, before and after that status. The targets are put on
  one line unless the dropped status was the last unit.
- Targets are joined with no separator.
- The comma pass of the single-line step looks only at what follows a
  comma. A comma inside a string value is removed too when no class
  character follows it: `"5,-"` becomes `"5-"`. See
  `CommaInsideStringDropped`.
- Objects are modelled as property lists. The values the transformer
  builds never repeat a property name (`SetFieldKeepsDistinct`).
- A cache entry is served while `expiresOn > now`. When
  `CACHE_EXPIRATION_SECONDS` does not parse as an integer, every lookup
  misses.
- The partition query's failures cannot fail a record. The Athena and
  CloudWatch wrappers catch their own errors
  (cdk-stacks/lib/lambdas/handlers/node/services/AthenaService.mjs:20-28 and
  cdk-stacks/lib/lambdas/handlers/node/services/CloudWatchService.mjs:22-29).

## Model

| member | source | states |
|---|---|---|
| JsValue.Get | cdk-stacks/lib/lambdas/handlers/node/firehoseTransformer.mjs:156 | reading a property throws exactly when the value is null or undefined; on an object it is the field's value, undefined when absent |
| JsValue.OptGet | cdk-stacks/lib/lambdas/handlers/node/firehoseTransformer.mjs:186 | `?.` gives undefined on a nullish value and otherwise agrees with the plain read |
| JsValue.SetProp | cdk-stacks/lib/lambdas/handlers/node/firehoseTransformer.mjs:176 | assigning a property of an object makes that property read back as the new value and leaves every other property unchanged |
| JsValue.SetFieldLookup | cdk-stacks/lib/lambdas/handlers/node/firehoseTransformer.mjs:204 | after an assignment, the assigned key reads the new value and any other key reads what it read before |
| JsValue.SetFieldKeys | cdk-stacks/lib/lambdas/handlers/node/utils/customMethodHandlers.mjs:110 | assigning an existing key keeps the key order; a new key is appended last (JS insertion order) |
| JsValue.SetFieldKeepsDistinct | cdk-stacks/lib/lambdas/handlers/node/firehoseTransformer.mjs:176 | assigning a property never makes a property name occur twice |
| JsValue.NatToDecimal | cdk-stacks/lib/lambdas/handlers/node/firehoseTransformer.mjs:224 | `toString()` of a natural number is a non-empty string of digits, one digit exactly below 10, with no leading zero otherwise |
| JsValue.DecimalRoundTrip | cdk-stacks/lib/lambdas/handlers/node/firehoseTransformer.mjs:224-227 | the decimal text of a number reads back as that number |
| JsValue.IndexNameRoundTrip | cdk-stacks/lib/lambdas/handlers/node/firehoseTransformer.mjs:186 | the property name of an array index (`changes[0]`) is recognised as exactly that index |
| JsValue.CanonicalIndexSound | cdk-stacks/lib/lambdas/handlers/node/utils/customMethodHandlers.mjs:110 | a property name taken as an array index is the canonical decimal text of that index |
| JsValue.Stringify | cdk-stacks/lib/lambdas/handlers/node/utils/customMethodHandlers.mjs:10 | `JSON.stringify` yields undefined exactly for undefined and a string for every other value |
| Cache.CachedFileStep | cdk-stacks/lib/lambdas/handlers/node/firehoseTransformer.mjs:55-72 | a fresh entry is returned with nothing fetched or stored; otherwise the store is read, a failure propagates and stores nothing, and a success is returned and stored under `bucket/key` with the new expiry; no other entry changes |
| Cache.ServedFromCacheUntilExpiry | cdk-stacks/lib/lambdas/handlers/node/firehoseTransformer.mjs:58-68 | after a miss is filled, every call before `now + lifetime*1000` returns the same file and leaves the cache as it is, whatever the store would say |
| Cache.NaNLifetimeNeverHits | cdk-stacks/lib/lambdas/handlers/node/firehoseTransformer.mjs:68 | with a lifetime that is not a number, every entry's expiry is NaN, so no entry is ever fresh and every call goes to the store |
| Cache.TemplateCache.constructor | cdk-stacks/lib/lambdas/handlers/node/firehoseTransformer.mjs:14 | the module starts with an empty cache |
| Cache.TemplateCache.GetCachedFile | cdk-stacks/lib/lambdas/handlers/node/firehoseTransformer.mjs:55-72 | the result and the new cache are those of `CachedFileStep` on the old cache |
| Expand.BaseFields | cdk-stacks/lib/lambdas/handlers/node/firehoseTransformer.mjs:78-83 | the base properties are exactly `context`, `aws_account_id`, `message_timestamp`, `whatsAppWebhookEntry`, in that order, each read from the message |
| Expand.ItemsOf | cdk-stacks/lib/lambdas/handlers/node/firehoseTransformer.mjs:89 | a falsy `change.value` contributes no status and no message |
| Expand.Units | cdk-stacks/lib/lambdas/handlers/node/firehoseTransformer.mjs:91-109 | one unit per item of the array |
| Expand.UnitsIndex | cdk-stacks/lib/lambdas/handlers/node/firehoseTransformer.mjs:91-109 | the k-th unit is built from the k-th item |
| Expand.PushUnits | cdk-stacks/lib/lambdas/handlers/node/firehoseTransformer.mjs:91-109 | the `forEach` loop appends the units of the array, in order, to what was already expanded |
| Expand.ExpandEach | cdk-stacks/lib/lambdas/handlers/node/firehoseTransformer.mjs:88-134 | the loop over the changes yields the specification's units, or throws as it does |
| Expand.ExpandChangesStep | cdk-stacks/lib/lambdas/handlers/node/firehoseTransformer.mjs:88-134 | one change appends its status units and then its message units |
| Expand.ExpandJsonEvents | cdk-stacks/lib/lambdas/handlers/node/firehoseTransformer.mjs:74-138 | the function agrees with its specification: no units without a truthy entry and `changes`, otherwise the units of every change |
| Expand.ExpandChangesShape | cdk-stacks/lib/lambdas/handlers/node/firehoseTransformer.mjs:93-131 | every unit carries the four base properties, the entry id, one change with the change's `field`, `metadata` and `messaging_product`, and a single-element `statuses` or `messages` array holding its item, in the order of the items |
| Expand.ExpandSpec | cdk-stacks/lib/lambdas/handlers/node/firehoseTransformer.mjs:74-138 | `expandJsonEvents` as a value: units come only from a truthy entry whose `changes` is an array (counts and shapes in `ExpandSpecShape`, the empty and throwing cases in `ExpandSpecCases`) |
| Expand.ShapedConcat | cdk-stacks/lib/lambdas/handlers/node/firehoseTransformer.mjs:88-134 | unit shapes are kept when the units of consecutive changes are concatenated |
| Expand.UnitHasShape | cdk-stacks/lib/lambdas/handlers/node/firehoseTransformer.mjs:93-106 | a unit built for one item of a change has the unit shape for that item and that change |
| Expand.UnitsShaped | cdk-stacks/lib/lambdas/handlers/node/firehoseTransformer.mjs:91-109 | the units of one array have the shapes of its items, tagged status or message and with their change |
| Expand.AllItemsCount | cdk-stacks/lib/lambdas/handlers/node/firehoseTransformer.mjs:88-134 | the items visited are as many as the statuses and messages of all changes together |
| Expand.ExpandSpecCases | cdk-stacks/lib/lambdas/handlers/node/firehoseTransformer.mjs:86-89 | no entry or no `changes`: no units; `changes` truthy but not an array: throws; with an array of changes, the expansion throws if some change is null or undefined and succeeds if none is |
| Expand.ExpandSpecShape | cdk-stacks/lib/lambdas/handlers/node/firehoseTransformer.mjs:74-138 | a successful expansion has exactly one unit per status and per message, each of the stated shape |
| Expand.ExpandChangesCounted | cdk-stacks/lib/lambdas/handlers/node/firehoseTransformer.mjs:88-134 | a successful expansion of a change list has one shaped unit per item of the list |
| Expand.NullChangeThrows | cdk-stacks/lib/lambdas/handlers/node/firehoseTransformer.mjs:89 | a null or undefined change anywhere in the list makes the expansion throw |
| Expand.NoNullChangeExpands | cdk-stacks/lib/lambdas/handlers/node/firehoseTransformer.mjs:88-134 | a list of changes none of which is null or undefined always expands |
| SingleLine.StripWhitespace | cdk-stacks/lib/lambdas/handlers/node/firehoseTransformer.mjs:244 | the first pass never lengthens the text |
| SingleLine.StripWhitespaceParity | cdk-stacks/lib/lambdas/handlers/node/firehoseTransformer.mjs:244 | when the quotes and escapes of a row tokenise, the first pass keeps its quote parity |
| SingleLine.StripWhitespaceComplete | cdk-stacks/lib/lambdas/handlers/node/firehoseTransformer.mjs:244 | when the quotes and escapes of a row tokenise, no white space is left that the first pass's lookahead would match: a second pass changes nothing |
| SingleLine.DropNewlines | cdk-stacks/lib/lambdas/handlers/node/firehoseTransformer.mjs:245 | no newline is left |
| SingleLine.DropTrailingCommas | cdk-stacks/lib/lambdas/handlers/node/firehoseTransformer.mjs:246 | the third pass never lengthens the text |
| SingleLine.FollowerAheadKept | cdk-stacks/lib/lambdas/handlers/node/firehoseTransformer.mjs:246 | the third pass keeps the follower a kept comma looks ahead to |
| SingleLine.NoTrailingComma | cdk-stacks/lib/lambdas/handlers/node/firehoseTransformer.mjs:246 | every comma left by the third pass is followed, after optional white space, by a character of the class |
| SingleLine.NonCommaKept | cdk-stacks/lib/lambdas/handlers/node/firehoseTransformer.mjs:246 | the third pass keeps every character other than a comma |
| SingleLine.CommaBeforeOtherDropped | cdk-stacks/lib/lambdas/handlers/node/firehoseTransformer.mjs:246 | a comma directly followed by a character outside the class, other than white space and a comma, is removed |
| SingleLine.CommaInsideStringDropped | cdk-stacks/lib/lambdas/handlers/node/firehoseTransformer.mjs:246 | the third pass removes a comma inside a string value too: `"5,-"` becomes `"5-"` |
| SingleLine.StripWhitespaceSkeleton | cdk-stacks/lib/lambdas/handlers/node/firehoseTransformer.mjs:244 | the first pass removes only white space |
| SingleLine.DropNewlinesSkeleton | cdk-stacks/lib/lambdas/handlers/node/firehoseTransformer.mjs:245 | the second pass removes only newlines |
| SingleLine.DropTrailingCommasSkeleton | cdk-stacks/lib/lambdas/handlers/node/firehoseTransformer.mjs:246 | the third pass removes only commas |
| SingleLine.SkeletonConcat | cdk-stacks/lib/lambdas/handlers/node/firehoseTransformer.mjs:243-248 | what is kept of a concatenation is what is kept of each part |
| SingleLine.SingleLineRemovesOnlySpaceAndCommas | cdk-stacks/lib/lambdas/handlers/node/firehoseTransformer.mjs:243-248 | the single-line step never lengthens a row and keeps every character other than white space and commas, in order |
| SingleLine.PlainParity | cdk-stacks/lib/lambdas/handlers/node/firehoseTransformer.mjs:244 | text without quotes or backslashes does not change the quote parity of what follows |
| SingleLine.PlainKept | cdk-stacks/lib/lambdas/handlers/node/firehoseTransformer.mjs:244 | inside a string literal (odd parity ahead) the first pass keeps plain text unchanged |
| SingleLine.StripHead | cdk-stacks/lib/lambdas/handlers/node/firehoseTransformer.mjs:244 | a character that is not white space outside quotes is kept |
| SingleLine.StringLiteralUntouched | cdk-stacks/lib/lambdas/handlers/node/firehoseTransformer.mjs:244 | a string literal of plain text followed by text outside quotes keeps its white space: only the text after it is stripped |
| Partition.YearOfEra | cdk-stacks/lib/lambdas/handlers/node/firehoseTransformer.mjs:224 | the day of a 400-year era splits into a year of the era and a day of that year, the 366th day only in a leap year |
| Partition.MonthOfYear | cdk-stacks/lib/lambdas/handlers/node/firehoseTransformer.mjs:225-226 | a day of a March-based year splits into a month and a day that exists in that month |
| Partition.CivilFromDays | cdk-stacks/lib/lambdas/handlers/node/firehoseTransformer.mjs:224-226 | the calendar date of a day count has a month in 1..12 and a day that exists in that month of that year |
| Partition.CivilRoundTrip | cdk-stacks/lib/lambdas/handlers/node/firehoseTransformer.mjs:224-226 | counting the days of the calendar date gives back the day count: no two days share a date |
| Partition.EraDayRoundTrip | cdk-stacks/lib/lambdas/handlers/node/firehoseTransformer.mjs:224-226 | the same, for a day given as an era and a day of the era |
| Partition.Pad2 | cdk-stacks/lib/lambdas/handlers/node/firehoseTransformer.mjs:225-227 | `padStart(2, '0')` of a number below 100 is two digits reading back as that number |
| Partition.KeysOfTime | cdk-stacks/lib/lambdas/handlers/node/firehoseTransformer.mjs:222-228 | an invalid date gives "NaN" for all four keys; otherwise the year is the decimal year and month, day and hour are two-digit numbers of a real date and an hour below 24 |
| Partition.KeysIdentifyHour | cdk-stacks/lib/lambdas/handlers/node/firehoseTransformer.mjs:222-228 | the date and hour of the keys determine the hour since the epoch, so records of different hours never share a partition |
| Partition.ExampleTime | cdk-stacks/lib/lambdas/handlers/node/firehoseTransformer.mjs:222-228 | timestamp 1700000000000 falls in partition 2023/11/14/22 |
| Partition.PartitionLocation | cdk-stacks/lib/cdk-backend-stack.ts:227 | the partition's LOCATION is the prefix the delivery stream writes the record under |
| Partition.AddPartitionQuery | cdk-stacks/lib/lambdas/handlers/node/firehoseTransformer.mjs:231-233 | the statement starts ``ALTER TABLE `<database>`.`<table>` ADD IF NOT EXISTS PARTITION (ingest_timestamp='Y-M-D H:00:00')`` from the keys and ends by naming the partition's LOCATION, which `PartitionLocation` ties to the delivery prefix |
| Extensions.FindFrom | cdk-stacks/lib/lambdas/handlers/node/utils/customMethodHandlers.mjs:3-119 | the first handler from a position whose `match` accepts the property, or none when none does |
| Extensions.UidsDistinct | cdk-stacks/lib/lambdas/handlers/node/utils/customMethodHandlers.mjs:3-119 | the eight handler names are distinct |
| Extensions.FindHandlerExact | cdk-stacks/lib/lambdas/handlers/node/utils/customMethodHandlers.mjs:6-8 | a property selects a handler exactly when it equals that handler's uid |
| Extensions.ToEscapedJson | cdk-stacks/lib/lambdas/handlers/node/utils/customMethodHandlers.mjs:9-21 | throws exactly for undefined; unescaping the result gives back `JSON.stringify`; the result holds no raw control character, and every quote and slash in it is preceded by a backslash |
| Extensions.EscapeChainIsCharwise | cdk-stacks/lib/lambdas/handlers/node/utils/customMethodHandlers.mjs:11-19 | the eight chained replacements escape each character on its own, the backslash first |
| Extensions.EscapeRoundTrip | cdk-stacks/lib/lambdas/handlers/node/utils/customMethodHandlers.mjs:11-19 | the escaping is undone by unescaping |
| Extensions.EscapedIsInlineSafe | cdk-stacks/lib/lambdas/handlers/node/utils/customMethodHandlers.mjs:11-19 | escaped text has no raw backspace, form feed, newline, carriage return or tab, and no unescaped quote or slash |
| Extensions.ToJson | cdk-stacks/lib/lambdas/handlers/node/utils/customMethodHandlers.mjs:27-30 | undefined exactly for undefined, exactly when `toEscapedJson` throws, and otherwise what unescaping `toEscapedJson` gives |
| Extensions.RetrieveItemFromRaw | cdk-stacks/lib/lambdas/handlers/node/utils/customMethodHandlers.mjs:37-55 | unparseable text throws; a falsy parse gives ''; a truthy string, number or boolean throws (the `in` test); on an object, the named property when it is present and '' when it is not; on an array, `length` or the indexed element, '' past the end |
| Extensions.Digits | cdk-stacks/lib/lambdas/handlers/node/utils/customMethodHandlers.mjs:74 | removing non-digits leaves only digits and never lengthens |
| Extensions.DigitsOfDigits | cdk-stacks/lib/lambdas/handlers/node/utils/customMethodHandlers.mjs:74 | a string of digits is unchanged by the removal |
| Extensions.FormatPhoneNumber | cdk-stacks/lib/lambdas/handlers/node/utils/customMethodHandlers.mjs:72-75 | throws exactly for a non-string; otherwise '+' followed by the digits of the input, in order |
| Extensions.FormatPhoneNumberIdempotent | cdk-stacks/lib/lambdas/handlers/node/utils/customMethodHandlers.mjs:72-75 | formatting a formatted number changes nothing |
| Extensions.Lower | cdk-stacks/lib/lambdas/handlers/node/utils/customMethodHandlers.mjs:93 | `toLowerCase` maps each character and keeps the length |
| Extensions.BeforeUnderscoreIsPrefix | cdk-stacks/lib/lambdas/handlers/node/utils/customMethodHandlers.mjs:93 | `split('_')[0]` is the longest prefix without an underscore |
| Extensions.DetermineChannel | cdk-stacks/lib/lambdas/handlers/node/utils/customMethodHandlers.mjs:91-98 | 'unknown' for a non-string; otherwise the lower-cased text before the first underscore, which holds no underscore |
| Extensions.DetermineChannelIdempotent | cdk-stacks/lib/lambdas/handlers/node/utils/customMethodHandlers.mjs:91-98 | determining the channel of a channel gives it back |
| Extensions.FlattenStep | cdk-stacks/lib/lambdas/handlers/node/utils/customMethodHandlers.mjs:109-111 | one turn of the `for…in` loop stores `params[0][tag][0]` or throws |
| Extensions.FlattenThrowPersists | cdk-stacks/lib/lambdas/handlers/node/utils/customMethodHandlers.mjs:109-111 | once a turn has thrown, the whole loop throws |
| Extensions.FlattenLoop | cdk-stacks/lib/lambdas/handlers/node/utils/customMethodHandlers.mjs:107-111 | the loop builds the specified `newTags`, or throws as it does |
| Extensions.FormatSESTags | cdk-stacks/lib/lambdas/handlers/node/utils/customMethodHandlers.mjs:105-117 | the handler gives the specified text: 'unknown' after an exception, the JSON of `newTags` otherwise |
| Extensions.ForInKeysReadable | cdk-stacks/lib/lambdas/handlers/node/utils/customMethodHandlers.mjs:109 | the names `for…in` visits can all be read |
| Extensions.SomeNullishSplit | cdk-stacks/lib/lambdas/handlers/node/utils/customMethodHandlers.mjs:110 | a nullish value among the names is among the first ones or is the last one |
| Extensions.FlattenTagsThrows | cdk-stacks/lib/lambdas/handlers/node/utils/customMethodHandlers.mjs:109-111 | the loop throws exactly when some visited value is null or undefined |
| Extensions.FlattenLookupStep | cdk-stacks/lib/lambdas/handlers/node/utils/customMethodHandlers.mjs:110 | one more store keeps every name seen mapped to its first element, and no other name set |
| Extensions.FlattenTags | cdk-stacks/lib/lambdas/handlers/node/utils/customMethodHandlers.mjs:107-111 | the flat map built by the `for…in` loop never holds a name twice (what each name maps to in `FlattenTagsLookup`, when it throws in `FlattenTagsThrows`) |
| Extensions.FlattenTagsLookup | cdk-stacks/lib/lambdas/handlers/node/utils/customMethodHandlers.mjs:109-111 | otherwise every visited name maps to the first element of its value, and no other name is set |
| Extensions.FormatSESTagsUnknown | cdk-stacks/lib/lambdas/handlers/node/utils/customMethodHandlers.mjs:105-117 | the result is 'unknown' exactly when some tag's value is null or undefined |
| Extensions.FormatSESTagsSpec | cdk-stacks/lib/lambdas/handlers/node/utils/customMethodHandlers.mjs:105-117 | the handler's text is either 'unknown' or a serialized object (when it is 'unknown' in `FormatSESTagsUnknown`) |
| FirehoseTransformer.FirstSignificant | cdk-stacks/lib/lambdas/handlers/node/firehoseTransformer.mjs:155 | the first character of the text that is not white space, if there is one |
| FirehoseTransformer.Json5Parse | cdk-stacks/lib/lambdas/handlers/node/firehoseTransformer.mjs:155 | blank text, or text whose first significant character cannot start a JSON5 value, fails to parse |
| FirehoseTransformer.Json5RejectsEmptyAndUndefined | cdk-stacks/lib/lambdas/handlers/node/firehoseTransformer.mjs:220 | parsing '' (a dropped status's target) or 'undefined' (no target) throws |
| FirehoseTransformer.ParseInput | cdk-stacks/lib/lambdas/handlers/node/firehoseTransformer.mjs:153-167 | a parse failure or a null parse throws; a truthy `Message` is parsed in turn and replaces the envelope; otherwise the parsed source is the message |
| FirehoseTransformer.Classify | cdk-stacks/lib/lambdas/handlers/node/firehoseTransformer.mjs:173-215 | throws exactly for a nullish message; WhatsApp iff the entry is truthy, messaging iff not that and `messageId` truthy, SES iff neither and `mail` truthy |
| FirehoseTransformer.WithParsedEntry | cdk-stacks/lib/lambdas/handlers/node/firehoseTransformer.mjs:176 | the message gains its parsed entry exactly when the entry text parses; an object stays an object, `parsedWhatsAppWebhookEntry` reads back as the parsed entry and every other property reads as before |
| FirehoseTransformer.MinifyAll | cdk-stacks/lib/lambdas/handlers/node/firehoseTransformer.mjs:243-248 | every target, and no other, is put on one line, in order |
| FirehoseTransformer.DateOf | cdk-stacks/lib/lambdas/handlers/node/firehoseTransformer.mjs:222 | `new Date(x)`: undefined is an invalid date, null is time 0, a number within the TimeClip range is that time and outside it invalid; every valid date lies within the range |
| FirehoseTransformer.TransformSpec | cdk-stacks/lib/lambdas/handlers/node/firehoseTransformer.mjs:147-269 | every record yields a well-formed result (at most one service call; keys exactly when the partition query is made; a metric means ProcessingFailed with no targets); a parse failure is exactly the case of the parsing metric |
| FirehoseTransformer.TemplateTrySpec | cdk-stacks/lib/lambdas/handlers/node/firehoseTransformer.mjs:170-261 | the second `try` yields a well-formed result and never the parsing metric |
| FirehoseTransformer.TemplateStage | cdk-stacks/lib/lambdas/handlers/node/firehoseTransformer.mjs:170-215 | a nullish message throws; a messaging event is rendered by the messaging template and an SES event by the SES template, each on the message with `originalEvent` attached, giving that single target with result Ok, or a throw when rendering fails; outside WhatsApp there is exactly one target, never Dropped, and Ok exactly when the partition step follows (the unknown shape is the only ProcessingFailed, by `TemplateStageResult`) |
| FirehoseTransformer.OriginalEventContext | cdk-stacks/lib/lambdas/handlers/node/firehoseTransformer.mjs:204-209 | the rendered context is the message with `originalEvent` reading back as the message and every other property unchanged |
| FirehoseTransformer.TemplateStageResult | cdk-stacks/lib/lambdas/handlers/node/firehoseTransformer.mjs:170-215 | the template stage decides ProcessingFailed exactly when the message has none of the known shapes, and then with record type 'unknown' and a single empty target |
| FirehoseTransformer.WhatsAppStageResult | cdk-stacks/lib/lambdas/handlers/node/firehoseTransformer.mjs:173-201 | the WhatsApp branch never sets ProcessingFailed itself |
| FirehoseTransformer.ExpandedNeverFails | cdk-stacks/lib/lambdas/handlers/node/firehoseTransformer.mjs:182-201 | rendering the expanded units never sets ProcessingFailed |
| FirehoseTransformer.RenderUnitsNeverFails | cdk-stacks/lib/lambdas/handlers/node/firehoseTransformer.mjs:184-201 | the loop over units never sets ProcessingFailed |
| FirehoseTransformer.PartitionStage | cdk-stacks/lib/lambdas/handlers/node/firehoseTransformer.mjs:220-228 | with no target or an empty first target the step throws; otherwise the keys are `KeysOfTime` of some time (with its ranges), so all "NaN" or month, day and hour of two characters each |
| FirehoseTransformer.PartitionUsesFirstTarget | cdk-stacks/lib/lambdas/handlers/node/firehoseTransformer.mjs:218-222 | the partition keys depend on the first target alone |
| FirehoseTransformer.PartitionNeedsFirstTarget | cdk-stacks/lib/lambdas/handlers/node/firehoseTransformer.mjs:220 | with no target, or an empty first target, the partition step throws |
| FirehoseTransformer.WhatsAppWithoutUnitsFails | cdk-stacks/lib/lambdas/handlers/node/firehoseTransformer.mjs:182-220 | a WhatsApp entry that fans out to nothing ends in ProcessingFailed, no targets, no keys and the template metric |
| FirehoseTransformer.DroppedFirstFails | cdk-stacks/lib/lambdas/handlers/node/firehoseTransformer.mjs:194-220 | a dropped status first, with a later unit rendered last, ends in ProcessingFailed with the template metric |
| FirehoseTransformer.RenderUnitStep | cdk-stacks/lib/lambdas/handlers/node/firehoseTransformer.mjs:184-201 | one unit: Dropped iff already dropped or a status without id; a message appends its render by the message template, a status with an id its render by the status template, a dropped status ""; earlier targets are kept; any other unit changes nothing |
| FirehoseTransformer.LastTargetFits | cdk-stacks/lib/lambdas/handlers/node/firehoseTransformer.mjs:184-201 | the target a message or status turn appends is the one its unit calls for |
| FirehoseTransformer.DroppedIffSomeStatusWithoutId | cdk-stacks/lib/lambdas/handlers/node/firehoseTransformer.mjs:189-199 | the units make the record Dropped exactly when one of them is a status without a truthy id; record type 'unknown' only then |
| FirehoseTransformer.ExistsSplit | cdk-stacks/lib/lambdas/handlers/node/firehoseTransformer.mjs:189-199 | some unit has a property iff one of the first ones has it or the last one does |
| FirehoseTransformer.RenderUnitsTargets | cdk-stacks/lib/lambdas/handlers/node/firehoseTransformer.mjs:184-201 | for units that are all messages or statuses, one target per unit, in order: the message template's render of a message unit, the status template's render of a status with an id, and "" for a status without one |
| FirehoseTransformer.ExpandedUnitClass | cdk-stacks/lib/lambdas/handlers/node/firehoseTransformer.mjs:186-191 | an expanded unit is classified as a message when it carries a message, otherwise as a status with or without a truthy id |
| FirehoseTransformer.ClassifyUnit | cdk-stacks/lib/lambdas/handlers/node/firehoseTransformer.mjs:186-191 | classifying a unit throws exactly when the unit, its parsed entry or the entry's `changes` is null or undefined (what it is classified as, in `ExpandedUnitClass`) |
| FirehoseTransformer.RenderThrowPersists | cdk-stacks/lib/lambdas/handlers/node/firehoseTransformer.mjs:184-201 | once rendering a unit has thrown, the whole loop throws |
| FirehoseTransformer.RenderUnits | cdk-stacks/lib/lambdas/handlers/node/firehoseTransformer.mjs:184-201 | the loop over the units computes the specified state |
| FirehoseTransformer.FillSlot | cdk-stacks/lib/lambdas/handlers/node/firehoseTransformer.mjs:19-25 | a compiled slot is kept and the cache not read; a filled slot comes from a successful cache step whose file parsed; it succeeds iff the slot is filled |
| FirehoseTransformer.FetchTemplatesSpec | cdk-stacks/lib/lambdas/handlers/node/firehoseTransformer.mjs:17-53 | a compiled template is never replaced; success iff all four templates are compiled afterwards |
| FirehoseTransformer.WarmInstanceNeverRecompiles | cdk-stacks/lib/lambdas/handlers/node/firehoseTransformer.mjs:17-53 | with all four compiled, nothing is fetched, stored or recompiled, however late |
| FirehoseTransformer.MapRecordsKeepsIds | cdk-stacks/lib/lambdas/handlers/node/firehoseTransformer.mjs:147-271 | mapping an id-preserving step over a batch keeps the length and each position's id |
| FirehoseTransformer.ProcessRecordKeepsId | cdk-stacks/lib/lambdas/handlers/node/firehoseTransformer.mjs:264-265 | an outbound record carries its inbound record's id |
| FirehoseTransformer.ProcessRecordSpec | cdk-stacks/lib/lambdas/handlers/node/firehoseTransformer.mjs:264-269 | the outbound record keeps the inbound id; a failed record carries the empty payload and no partition keys; partition keys are present exactly when the partition query was made |
| FirehoseTransformer.FailedPayloadEmpty | cdk-stacks/lib/lambdas/handlers/node/firehoseTransformer.mjs:210-261 | a failed record has no target or a single empty one, so its joined payload is empty |
| FirehoseTransformer.BatchKeepsRecordIds | cdk-stacks/lib/lambdas/handlers/node/firehoseTransformer.mjs:146-274 | one outbound record per inbound record, in order, with the same id |
| FirehoseTransformer.BatchStep | cdk-stacks/lib/lambdas/handlers/node/firehoseTransformer.mjs:147-271 | one more record appends its outbound record and its service calls |
| FirehoseTransformer.TransformBatch | cdk-stacks/lib/lambdas/handlers/node/firehoseTransformer.mjs:146-274 | the loop over `event.records` yields the specified records and service calls |
| FirehoseTransformer.Transformer.constructor | cdk-stacks/lib/lambdas/handlers/node/firehoseTransformer.mjs:14-15 | a cold start has an empty cache and no compiled template |
| FirehoseTransformer.Transformer.Compile | cdk-stacks/lib/lambdas/handlers/node/firehoseTransformer.mjs:19-25 | one compile-once block updates the cache and the slot as `FillSlot` says |
| FirehoseTransformer.Transformer.FetchTemplates | cdk-stacks/lib/lambdas/handlers/node/firehoseTransformer.mjs:17-53 | the four blocks update the slots and the cache as `FetchTemplatesSpec` says |
| FirehoseTransformer.Transformer.Handle | cdk-stacks/lib/lambdas/handlers/node/firehoseTransformer.mjs:140-275 | a failed compilation rejects the invocation with no service call; otherwise the batch is transformed with the compiled templates, record by record |

## Left out

- Numbers are integers: floating point, `NaN` as a value and numbers too large for a double are not modelled. The same holds for the arithmetic of `Date`, apart from its time-value range.
- Property reads see own properties only. The prototype chain is not modelled, nor getters or `Symbol` keys. `for…in` visits an object's own keys in insertion order. Integer-like keys are not moved to the front as in JS.
- Json5Parse: the JSON5 grammar, `JSON.parse` and the Velocity parser and renderer are parameters. The model fixes only that blank text and text starting like `undefined` fail. The custom method handlers are modelled on their own, not through a template.
- DateOf: how `Date` parses a string is a parameter. Local time is taken to be UTC, which is the time zone of the Lambda runtime.
- Buffer.from base64 decoding and encoding are parameters. `record.data` is taken to be a string and `event.records` a sequence.
- `structuredClone(message)` is a copy of the value. Values are immutable in the model, so later mutation and aliasing are not modelled.
- FirehoseTransformer.Positive: `?.length > 0` is modelled for the values the expanded units can give (numbers and booleans). The comparison of strings and objects with 0 is not modelled.
- The Athena and CloudWatch calls are returned as effects that never throw, because their wrappers catch every error. The query results and `console` logging are not modelled.
- Time is a parameter `now`: one clock reading per `getCachedFile` call (both `Date.now()` readings agree), and one per invocation of the handler.
- Concurrency is not modelled. Several invocations of one instance never overlap, so the model runs them one after another.
- `convertTime` is `new Date(x).getTime()`. The model covers that as `DateOf` and does not repeat it as a handler.
- `fetchAccountId` returns an environment variable. It computes nothing to model.
- JsValue.Stringify: it omits keys whose value is undefined and writes undefined array elements as `null`. This holds by definition; the model proves no separate lemma about it. `toJSON` methods, cycles and the escaping of lone surrogates are not modelled.
- Extensions.Lower: `toLowerCase` is modelled for ASCII letters only.
