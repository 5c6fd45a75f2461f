# Teams notifier: classification and card formatting

This project is a Dafny model of the core of an AWS Lambda function that
forwards SNS notifications to a Microsoft Teams webhook
(`functions/notify_teams.py`). The Lambda takes the first SNS record of the
event and decodes its `Message` as JSON. It classifies the decoded payload,
first match wins:

- a CloudWatch alarm, when the payload has an `AlarmName`;
- a CloudTrail service event, when its `detail-type` is exactly
  `"AWS Service Event via CloudTrail"`;
- anything else.

Each class has a formatter that computes a colour, a title and a text. The
alarm formatter also consults a static override table keyed by the exact
(new state, alarm name) pair. The result is wrapped in a fixed Adaptive Card
1.5 message, which the Lambda then posts.

The model is pure, like the source: datatypes, functions and lemmas.

- `Python` (python.dfy): a decoded JSON value (`Json`: None, bool, int, str,
  list, dict) and the Python operations the handler applies to it. These are
  `v[key]`, `v[0]`, `dict.get`, `needle in v` (substring test on a str,
  element test on a list, key test on a dict, TypeError otherwise) and
  `str()` of a scalar. An operation that raises in Python returns `Err` with
  the exception.
- `Strings` (strings.dfy): `str.split` on one character, with `Join` as its
  inverse; `split(' ')[0]`; ASCII `lower`; the `in` test between strings;
  `str()` of an integer.
- `AdaptiveCard` (card.dfy): `CardData` (colour, title, text) and
  `BuildCard`, the fixed card template.
- `NotifyTeams` (notify_teams.dfy): `is_cloudwatch_alarm`, the classifier,
  the three formatters, the override table, and the handler up to the HTTP
  post.

`json.loads` and `json.dumps(..., indent=2)` are library calls. They are
parameters of the model:

- `decode: string -> Option<Json>` stands for `json.loads`; `None` means the
  text is not JSON.
- `dumps: seq<(string, Json)> -> string` stands for `json.dumps` applied to a
  dict literal, with its keys in order.

Every property is proved for all decoders and all serialisers.

The model follows the code as written, including where it fails:

- A `Message` that is not JSON makes the handler raise `JSONDecodeError` at
  line 77, because that `json.loads` has no guard. It does not fall back to
  the generic card. See Findings.
- An alarm without `OldStateValue`, `NewStateValue` or `NewStateReason`
  raises a `KeyError` for the first missing key, in that order.
- The CloudTrail fault code is the text before the first single space
  (`split(' ')[0]`), not before the first whitespace character.
- A payload that is not a dict always ends in an exception: `TypeError` from
  `in` on a number or None, or from subscripting a str or a list, and
  `AttributeError` from `.get` on a str or a list.

ASCII `lower()` is exact for the one comparison the source makes with it,
`new_state.lower() == 'alarm'`. No non-ASCII character lowercases to one of
`a`, `l`, `r`, `m`, so the 32 ASCII case variants of "alarm" are the only
strings that pass.

Formatting the same input twice gives the same card: every member is a
function of its arguments, with no clock or random source among them.

## Model

| member | source | states |
|---|---|---|
| `NotifyTeams.IsCloudWatchAlarm` | functions/notify_teams.py:14-19 | Text that does not decode is not an alarm; a decoded dict is an alarm iff it has the key `AlarmName` |
| `NotifyTeams.Classify` | functions/notify_teams.py:81-114 | First match wins: a dict with `AlarmName` takes the alarm branch even if its `detail-type` is the CloudTrail marker; without `AlarmName`, an exactly equal `detail-type` takes the CloudTrail branch; every other dict takes the generic branch; a payload that is not a dict is an error |
| `NotifyTeams.IsCloudTrailEvent` | functions/notify_teams.py:110 | Holds exactly when `payload.get('detail-type')` equals the CloudTrail marker; an absent key gives None, which never equals it |
| `NotifyTeams.AlarmGuardRedundant` | functions/notify_teams.py:81 | The second conjunct of the alarm guard, `is_cloudwatch_alarm(message)`, agrees with the first whenever the first does not raise |
| `NotifyTeams.AlarmCard` | functions/notify_teams.py:82-108 | Missing fields raise KeyError in read order; a non-str new state is an AttributeError; an unhashable name is a TypeError; the branch succeeds exactly for a renderable alarm or an exact (new state, name) key of the table; such a key yields that entry in all three fields, whatever the old state and reason hold; otherwise the colour is Attention iff `new_state.lower() == "alarm"` and Good iff not, the title is "Red Alert - " or "Resolved - " followed by `str(name)`, and the text is the fixed template with `str()` of name, old state and reason |
| `NotifyTeams.OverridePrecedence` | functions/notify_teams.py:95-108 | The table never turns a success into a failure and never changes an error; an exact key match yields the entry; without one the computed card is returned unchanged |
| `NotifyTeams.OverrideIsCaseSensitive` | functions/notify_teams.py:90-108 | ("alarm", "my-alarm-name") misses the "ALARM" entry, and the computed card still has colour Attention and title "Red Alert - my-alarm-name" |
| `NotifyTeams.OverrideEntries` | functions/notify_teams.py:95-106 | The table `Overrides` has exactly the keys ("ALARM", "my-alarm-name") and ("OK", "my-alarm-name"), coloured Attention and Good |
| `NotifyTeams.OverrideHitIgnoresRepr` | functions/notify_teams.py:91-108 | An alarm whose old state is a list still yields the ("ALARM", "my-alarm-name") entry: the f-strings never raise, and line 108 discards their result |
| `NotifyTeams.OverrideExactMatch` | functions/notify_teams.py:95-108 | ("ALARM", "my-alarm-name") yields the literal override entry |
| `NotifyTeams.AlarmColours` | functions/notify_teams.py:89-106 | With the handler's table, every alarm card is coloured Attention or Good |
| `NotifyTeams.CloudTrailTitle` | functions/notify_teams.py:28 | Without a colon the title is "Alert - Issue: " + `str(event name)`; with at least seven colon-separated segments it is "Alert - " + the seventh segment up to its first space + " - Issue: " + `str(event name)`; a colon with fewer than seven segments is an IndexError; a reason that `in` rejects is a TypeError, and a non-str reason holding ":" is an AttributeError |
| `NotifyTeams.FaultCodeTitle` | functions/notify_teams.py:28 | For every reason made of six colon-free segments and then "token rest", the title carries exactly `token` |
| `NotifyTeams.SegmentsAreColonsPlusOne` | functions/notify_teams.py:28 | Seven or more segments means six or more colons |
| `NotifyTeams.ParseCloudTrailEvent` | functions/notify_teams.py:22-40 | A detail that is not a dict is an AttributeError; missing `eventName` and `errorMessage` become "UnknownEvent" and "No error message provided"; the colour is always Attention; the text serialises Subject, Type, MessageId, Message and Timestamp in that order, with "Unknown" for the missing ones |
| `NotifyTeams.EmptyDetailDefaults` | functions/notify_teams.py:25-39 | An empty detail gives title "Alert - Issue: UnknownEvent" and every default in the text |
| `NotifyTeams.DefaultTitle` | functions/notify_teams.py:25-28 | The default reason has no colon, so for every event name the title has no fault code |
| `NotifyTeams.NoColonTitle` | functions/notify_teams.py:28 | Any str reason without a colon gives "Alert - Issue: " + event name |
| `NotifyTeams.RecordSummary` | functions/notify_teams.py:119-126 | The generic text lists Subject, Type, MessageId, TopicArn, Message and Timestamp in that order, each the record's value or null when absent |
| `NotifyTeams.GenericCard` | functions/notify_teams.py:116-127 | The colour is Warning; the title is "Alert - " + `str(Subject)`, or "Alert - No Subject" when the record has none; the text is the serialised record summary |
| `NotifyTeams.NullSubjectTitle` | functions/notify_teams.py:118 | A `Subject` stored as null is titled "Alert - None": `.get` returns the stored value, not the default |
| `NotifyTeams.Unwrap` | functions/notify_teams.py:75 | Only the first record's `Sns` is used; a non-dict event is a TypeError; a missing `Records` or `Sns` is a KeyError; an empty `Records` list is an IndexError; a first record that is not a dict is a TypeError |
| `NotifyTeams.CardFor` | functions/notify_teams.py:76-127 | A message that does not decode is a JSONDecodeError; a non-str message is a TypeError; a decoded dict is routed to the alarm, CloudTrail or generic formatter by the dispatch order, and a CloudTrail event without `detail` is a KeyError |
| `NotifyTeams.Handle` | functions/notify_teams.py:73-129 | An unwrap or formatting error ends the invocation with that error; otherwise the result is exactly `BuildCard` of the formatter's data, so the whole template above holds: one Adaptive Card attachment with two body blocks carrying the formatter's title, colour and text |
| `NotifyTeams.PlainTextMessageFails` | functions/notify_teams.py:77 | A plain-text message raises JSONDecodeError, although the generic formatter would accept the same record |
| `NotifyTeams.CardForCorrected` | functions/notify_teams.py:77 | With the decode failure caught, text that is not JSON takes the generic branch, and every other record is formatted as before |
| `NotifyTeams.HandleCorrected` | functions/notify_teams.py:73-129 | The corrected handler posts the generic card for a message that is not JSON |
| `AdaptiveCard.BuildCard` | functions/notify_teams.py:43-70 | The message has exactly one attachment of content type `application/vnd.microsoft.card.adaptive` whose body has two TextBlocks: the title verbatim with the colour name (default "Default"), then the text verbatim with wrap on. The fixed parts are pinned too: the content is an `AdaptiveCard` of version 1.5 with the Adaptive Card schema URL, the title block is Bolder and Medium, and no object of the message has a key beyond the template's |
| `AdaptiveCard.CardDeterminedByData` | functions/notify_teams.py:43-70 | Two cards are equal iff their titles, colour names and texts are equal: nothing else reaches the card |
| `AdaptiveCard.MissingColourIsDefault` | functions/notify_teams.py:59 | Card data without a colour is shown exactly as with colour Default |
| `Strings.Split` | functions/notify_teams.py:28 | `split(':')` gives one piece more than there are separators; the pieces hold no separator, and joined with it they give back the input |
| `Strings.SplitJoin` | functions/notify_teams.py:28 | Splitting undoes joining for separator-free pieces |
| `Strings.FirstToken` | functions/notify_teams.py:28 | `split(' ')[0]` is a space-free prefix, either the whole string or followed by a space |
| `Strings.ContainsOccurs` | functions/notify_teams.py:28 | `sub in s` holds exactly when some position of `s` starts a copy of `sub` |
| `Strings.ContainsChar` | functions/notify_teams.py:28 | `':' in reason` holds iff the character occurs in the reason |
| `Strings.Lower` | functions/notify_teams.py:90 | `lower()` keeps the length and lowercases each ASCII letter in place |
| `Strings.LowerIsAlarm` | functions/notify_teams.py:90-91 | `s.lower() == "alarm"` holds exactly for the spellings of "alarm" with each letter in either case |
| `Strings.NatToDecimal` | functions/notify_teams.py:91-92 | `str()` of a natural number is a non-empty string of decimal digits that starts with '0' exactly when the number is 0 |
| `Strings.DecimalUnique` | functions/notify_teams.py:91-92 | `str(n)` is the only canonical digit string (no leading zero) that reads back as `n` |
| `Strings.DecimalRoundTrip` | functions/notify_teams.py:92 | Reading back the digits of `str(n)` gives `n` |
| `Strings.IntToDecimal` | functions/notify_teams.py:91-92 | `str(i)` starts with a minus sign iff `i` is negative; the rest is `str(abs(i))` |
| `Strings.IntDecimalRoundTrip` | functions/notify_teams.py:91-92 | Reading back the sign and digits of `str(i)` gives `i` |
| `Python.Str` | functions/notify_teams.py:91-92 | An f-string renders None as "None", True and False as "True" and "False", an int by its decimal digits, and a str as itself |
| `Python.Lookup` | functions/notify_teams.py:118-125 | `d.get(key, default)` on a dict is the stored value when the key is present, else the default |
| `Python.Get` | functions/notify_teams.py:110 | `.get` succeeds exactly on a dict, with the stored value or the default; on anything else it is an AttributeError |
| `Python.GetItem` | functions/notify_teams.py:82-85 | `v[key]` succeeds exactly when `v` is a dict holding the key, with its value; a missing key is a KeyError, a non-dict a TypeError |
| `Python.FirstItem` | functions/notify_teams.py:75 | `v[0]` is the first element of a non-empty list or the first character of a non-empty str; empty ones are an IndexError, a dict a KeyError, a scalar a TypeError |
| `Python.In` | functions/notify_teams.py:81 | `needle in v` is a substring test on a str, an element test on a list, a key test on a dict, and a TypeError on None, a bool or a number |
| `AdaptiveCard.ColourName` | functions/notify_teams.py:59 | The colour is "Default" exactly when the data has none or has Default; it is always one of the four palette names |

## Left out

- The HTTP post and its error handling (lines 131-143). This is network I/O
  through a library; `Handle` stops at the card that would be posted.
- Logging (lines 10-11 and every `logger` call) and reading
  `TEAMS_WEBHOOK_URL` from the environment (line 8). These are side effects
  and configuration.
- The internals of `json.loads` and `json.dumps`. They are the `decode` and
  `dumps` parameters.
- JSON numbers with a fraction or an exponent, and NaN. `Json` numbers are
  integers.
- Non-ASCII case mapping in `lower()`. For the comparison with "alarm" this
  loses nothing (see above).
- NotifyTeams.AlarmCard: without a table hit, an old state or reason that
  is a list or dict ends in `ReprNotModelled`, where the source renders its
  Python repr into the computed text. A table hit returns the entry as the
  source does.
- NotifyTeams.OverridePrecedence: it does not promise that the table leaves
  success unchanged in both directions. A table hit succeeds even where the
  computed card would need a repr the model leaves out.
- NotifyTeams.CloudTrailTitle: an event name that is a list or dict ends in
  `ReprNotModelled`, where the source renders its repr into the title.
- NotifyTeams.GenericCard: a `Subject` that is a list or dict ends in
  `ReprNotModelled`, where the source renders its repr into the title.
- Key order and duplicate keys of JSON objects. A decoded object is a
  `map`, so a nested object inside a serialised field (for example an
  `eventType` or `Subject` that is itself an object) reaches `dumps` without
  the key order the source's `json.dumps` would print. The top-level keys
  of each serialised summary are a sequence and keep their order.
- Python's `KeyError` for `Records` that is a dict carries the integer key 0.
  The model writes it as the string "0".

## Findings

| source | as written | input that shows it | evidently intended | confidence | as-written member | corrected member |
|---|---|---|---|---|---|---|
| functions/notify_teams.py:77 | `json.loads(message)` has no guard, so a message that is not JSON raises JSONDecodeError and no card is posted | an SNS record whose `Message` is `disk is full` | Such text takes the generic branch. `is_cloudwatch_alarm` already catches JSONDecodeError, and the generic branch formats the raw record | medium, not executed | `NotifyTeams.PlainTextMessageFails` | `NotifyTeams.CardForCorrected` |

`Handle` models the handler as written. `HandleCorrected` is the same
handler built on `CardForCorrected`.
