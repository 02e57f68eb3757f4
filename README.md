# PcLimitEditTimePeriod in Dafny

A model of `PcLimitEditTimePeriod`, a Yii `CActiveRecordBehavior`. It is attached to
a model record (its owner) and decides whether the record may still be edited. It
reads the owner's "created on" attribute, which is an integer in epoch seconds or a
date string handed to `DateTime`. Editing is allowed iff
`created + timeout * 60 >= now`, where `timeout` is in minutes and the boundary is
inclusive. Validation fails open. A missing attribute allows the edit, and so does a
value the date parser rejects (as the code intends; see Findings). Each failure is logged when `useLogging` is set.
`disallowEditIfExpired` renders the "edit timeout expired" view exactly when the
edit is denied. Before rendering it replaces an unset `message` with the default
text, and that replacement persists.

- `wrappers.dfy`: module `Wrappers`, an `Option` type. `None` stands for PHP's `false`
  and for an unset value.
- `edit_window.dfy`: module `EditWindow`, the rule as pure functions. It covers
  validation (`Classify`), the log entries of a validation, the decision
  (`EditAllowed`), the effect of one denial on `message` and on the renders, and a
  series of calls. It also holds the lemmas and a model of the code as PHP executes
  it (see Findings).
- `limit_edit_time_period.dfy`: module `EditTimeLimit`, class `PcLimitEditTimePeriod`.
  It has the source's fields and one method per source method. Each method's
  `modifies` clause names only the fields the source assigns, so the host record
  `owner` is never written. Each method is proved against the functions of
  `EditWindow`.

Outside collaborators are parameters or ghost state:
- The clock (`time()`) is the parameter `now`, read once per call.
- The date parser (`new DateTime(...)->getTimestamp()`) is the `parse` function
  given to the constructor. It returns `None` where the source expects `false`.
- `Yii::log` appends a `LogEntry` to the ghost sequence `logs`.
- The controller's render appends the message to the ghost sequence `renders`.

## Model

| member | source | states |
|---|---|---|
| `EditWindow.Allowed` | components/PcLimitEditTimePeriod.php:66-74 | the edit is allowed iff the seconds elapsed since creation are at most `timeout * 60` (inclusive) |
| `EditWindow.Classify` | components/PcLimitEditTimePeriod.php:58-146 | validation fails as missing iff the attribute is absent, and fails as unparseable iff the value is a string the parser rejects; an integer value is the timestamp itself and is never parsed; a parsed string's timestamp is the parser's result |
| `EditWindow.ValidationLog` | components/PcLimitEditTimePeriod.php:108-152 | a validation logs at most one entry, and logs one iff logging is on and validation failed; the entry names the missing attribute or carries the bad value |
| `EditWindow.EditAllowed` | components/PcLimitEditTimePeriod.php:49-75 | a missing attribute or an unparseable value allows the edit; an integer `t` (or parsed timestamp `t`) allows it iff `t + timeout*60 >= now`; a refusal implies validation succeeded |
| `EditWindow.DenialStep` | components/PcLimitEditTimePeriod.php:91-97 | a denial renders exactly once, and no denial renders nothing; the rendered text is the custom message or the default one; an unset message becomes the default one, and otherwise `message` is unchanged |
| `EditWindow.DenialRun` | components/PcLimitEditTimePeriod.php:83-100 | over any series of calls, with the host record and clock of each call free, the renders number exactly the denials and are all the same string (the custom message or the default one); `message` ends as the initial one if nothing was rendered, and otherwise as that string |
| `EditWindow.InclusiveBoundary` | components/PcLimitEditTimePeriod.php:69-74 | editing is allowed at exactly the deadline and refused one second after it |
| `EditWindow.ExpiryIsPermanent` | components/PcLimitEditTimePeriod.php:66-74 | once refused for a record, editing stays refused at every later time |
| `EditWindow.IntegerBypassesParser` | components/PcLimitEditTimePeriod.php:58-64 | for an integer creation value, validation and decision are the same whatever the parser |
| `EditWindow.HourWindowExamples` | components/PcLimitEditTimePeriod.php:69-74 | with a 60-minute window, a record created 3661 s ago is refused and one created 3599 s ago is allowed |
| `EditWindow.EditAllowedAsWritten` | components/PcLimitEditTimePeriod.php:143-146 | as PHP executes it, `isEditAllowed` throws iff the value is an unparseable string, and otherwise returns what `EditAllowed` returns |
| `EditWindow.NotADateThrows` | components/PcLimitEditTimePeriod.php:143-152 | for the value "not-a-date", PHP throws while the intended rule allows the edit |
| `EditTimeLimit.PcLimitEditTimePeriod.constructor` | components/PcLimitEditTimePeriod.php:28-44 | defaults: timeout 60 minutes, no custom message, attribute `created_on`, logging on, nothing cached, logged or rendered |
| `EditTimeLimit.PcLimitEditTimePeriod.ValidateCreatedOnAttribute` | components/PcLimitEditTimePeriod.php:108-119 | succeeds iff the owner has the attribute; on failure it logs the attribute name exactly when logging is on |
| `EditTimeLimit.PcLimitEditTimePeriod.InitializeInternalAttributes` | components/PcLimitEditTimePeriod.php:158-162 | the cached value becomes the owner's attribute value |
| `EditTimeLimit.PcLimitEditTimePeriod.ValidateCreateOnValue` | components/PcLimitEditTimePeriod.php:127-153 | succeeds iff `Classify` says valid; it appends exactly `ValidationLog`'s entries; the cache holds the owner's value whenever the attribute exists, and keeps its old value when it is missing |
| `EditTimeLimit.PcLimitEditTimePeriod.IsEditAllowed` | components/PcLimitEditTimePeriod.php:49-75 | returns `EditAllowed` for the current owner, configuration and `now`; logs and cache as for validation; the owner and the other fields are unchanged |
| `EditTimeLimit.PcLimitEditTimePeriod.DisallowEditIfExpired` | components/PcLimitEditTimePeriod.php:83-100 | `message` and the renders change as `DenialStep` says for a denial iff `EditAllowed` is false; validation runs twice on the success path, yet at most one error is logged; the owner is unchanged |

## Left out

- The date parser is a function parameter. Real `DateTime` parsing, relative formats and time zones are not modelled.
- Attribute values are integers or strings. Other PHP types (`null`, floats, `DateTime` objects) are not modelled. `new DateTime(null)`, for instance, means "now".
- PHP integer overflow is not modelled. Integers are unbounded, whereas in PHP `timestamp + timeout * 60` would turn into a float beyond 64 bits.
- The source reads `time()` twice (lines 67 and 69). The model uses one reading. The unused debug variables on lines 67-68 are dropped.
- Log message text, severity, category and `get_class($owner)` are not modelled. A log call is one abstract entry.
- The render call's view name and controller lookup are not modelled. A render is the message string it receives.
- `CActiveRecordBehavior` attachment is not modelled. The owner is given to the constructor, and the configuration fields are set by assigning them.
- `hasAttribute` and `$owner->$attr` are modelled as the same map lookup.

## Findings

| source | as written | input that shows it | evidently intended | confidence | as-written member | corrected member |
|---|---|---|---|---|---|---|
| components/PcLimitEditTimePeriod.php:143-152 | `new DateTime($value)` throws on a string it cannot parse. The `$test !== false` test is therefore always true, and the exception escapes from `isEditAllowed`. | a `created_on` value of `"not-a-date"` | log the bad value and allow the edit (fail open) | high for PHP's documented behaviour; not executed | `EditWindow.EditAllowedAsWritten` (`EditWindow.NotADateThrows`) | `EditWindow.EditAllowed` |
