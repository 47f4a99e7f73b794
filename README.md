# Kuzzle: numeric field validation and read-controller collection listing

This project models two small rules of the Kuzzle real-time API gateway and
proves their contracts in Dafny 4.11.

- **The `numeric` validation type** (`numeric.dfy`, module `Numeric`). A field
  specification of type `numeric` may carry a `range` type option with an
  optional `min` and an optional `max`.
  - `ValidateFieldSpecification` checks these options once. It returns them
    unchanged, or throws a `PreconditionError` with one of four fixed messages.
  - `NumericType.Validate` checks one field value against accepted options.
    It returns a boolean. On failure it appends exactly one fixed message to
    the caller's `errorMessages` list.
- **The read controller** (`read_controller.dfy`, module `ReadController`).
  - Each read action emits the plugin event `data:<action>`.
  - `listCollections` takes an optional `type` argument: `all` (the default),
    `stored` or `realtime`. It decides which sources are consulted: the storage
    engine's stored collection list, the room registry's realtime list, or both.
    It echoes the type in `data.type` and returns one facet per consulted
    source. Any other value is a `BadRequestError`.

JavaScript values are modelled in `js_values.dfy` (module `JsValues`). Numbers
are modelled as `real`. A plain object is a map holding its own properties.
Arrays and `null` are distinct kinds and are not plain objects.

The behaviour is taken from the repository's unit tests. The implementation
modules they exercise (`lib/api/core/validation/types/numeric`,
`lib/api/core/validation/baseType`, `lib/api/controllers/readController`) are
not part of this model. Where the tests leave a case open, the model makes a
choice. Some contracts state that choice, such as which error wins when two
checks fail at once. Others leave it open, such as a value equal to a bound.
Each such case is listed under "Left out".

The tests assert two separate facets for `listCollections`, each equal to its
source's list, and a shared name (`foo`) appears in both
(readController.test.js:93-101, 138-139). The model does not merge or
deduplicate them.

## Model

| member | source | states |
|---|---|---|
| `Numeric.NumericType.constructor` | test/api/core/validation/types/numeric.test.js:14-20 | A new numeric type has `typeName` `"numeric"`, `allowChildren` false and a list of allowed type options (`["range"]`). |
| `Numeric.ValidateFieldSpecification` | test/api/core/validation/types/numeric.test.js:62-103 | Succeeds exactly when the options satisfy the independent `ValidSpecification` predicate, and then returns them unchanged. A `range` that is not a plain object (array, undefined, null, string, number), or that has a property other than `min`/`max`, gives `Invalid "range" option definition`. A present non-number `min` gives the `range.min` error. A non-number `max` gives the `range.max` error when `min` is absent or a number. The `min > max` error is given exactly when both bounds are numbers in a valid range object and `min > max`. |
| `Numeric.MessagesDistinct` | test/api/core/validation/types/numeric.test.js:77-102 | The four `PreconditionError` messages (`Invalid "range" option definition`, `Invalid "range.min" option: must be of type "number"`, the same for `range.max`, `Invalid range: min > max`) are pairwise different, so a message identifies the failed check. |
| `Numeric.Rejection` | test/api/core/validation/types/numeric.test.js:32-59 | A non-number gets `The field must be a number.`. A number below `min` gets `The value is lesser than the minimum.`. A number above `max` gets `The value is greater than the maximum.`. An accepted value is a number within the closed range. A number strictly inside the range, or with no range, is accepted. Only these three messages are ever produced. |
| `Numeric.NumericType.Validate` | test/api/core/validation/types/numeric.test.js:32-59 | Returns true exactly when `Rejection` finds nothing, and then leaves `errorMessages` unchanged. Otherwise it returns false and appends exactly one message, the one `Rejection` names, to the caller's list. |
| `Numeric.MessageList.Push` | test/api/core/validation/types/numeric.test.js:41-44 | The caller-owned message array grows by exactly the appended message. |
| `Numeric.SomeNumberAccepted` | test/api/core/validation/types/numeric.test.js:36-37 | For options accepted by `ValidateFieldSpecification`, some number passes `Validate`, provided any two bounds satisfy `min < max` (the test's 41..42 accepts 41.5). |
| `ReadController.EventName` | test/api/controllers/readController.test.js:42 | The event a read action emits is `data:` followed by the action's name. |
| `ReadController.TestedEventNames` | test/api/controllers/readController.test.js:38-200 | The five read actions emit exactly the names the tests listen for: `data:search`, `data:get`, `data:count`, `data:listCollections` and `data:now` (lines 42, 60, 78, 149, 198). |
| `ReadController.EventNamesDistinct` | test/api/controllers/readController.test.js:38-44 | Two actions emit the same event name if and only if they are the same action. So a listener on `data:search`, `data:get`, `data:count`, `data:listCollections` or `data:now` hears only that action. |
| `ReadController.ParseType` | test/api/controllers/readController.test.js:153-177 | A missing `type` means `all`. The strings `all`, `stored` and `realtime` are accepted, and the chosen facet's name is the given string. Any other value, string or not, is rejected with a `BadRequestError` carrying it. |
| `ReadController.ParseTypeName` | test/api/controllers/readController.test.js:159-177 | Every facet's name parses back to that facet. |
| `ReadController.ListCollectionsOf` | test/api/controllers/readController.test.js:123-177 | Fails exactly on an unsupported `type` value. Otherwise `data.type` echoes the argument (`all` when absent). The storage engine is consulted exactly unless the type is `realtime`, and the room registry exactly unless it is `stored`. Each consulted source's list is returned unchanged as its own facet, and an unconsulted facet is absent. |
| `ReadController.FacetIndependence` | test/api/controllers/readController.test.js:159-177 | A `stored` listing does not depend on the room registry's list. A `realtime` listing does not depend on the storage engine's list. |
| `ReadController.DefaultListsBoth` | test/api/controllers/readController.test.js:93-101 | A corollary of `ListCollectionsOf`'s contract: with no `type`, both sources are consulted and each facet is its source's list. A name known to both sources (`foo`) appears in both facets. |

## Left out

- `search`, `get` and `count` outcomes (rejections with status 400 and 404): they depend on the storage engine's answers, which are not part of this model. Only their event names are modelled.
- `now`: it reads the wall clock. Only its event name is modelled.
- Kuzzle start-up, logging, and the hydration of the guest role, anonymous profile and anonymous user that the tests' set-up performs. No behaviour of them is asserted.
- Promises, the plugin event emitter's mechanics and the test time-outs. An event is modelled by the name it is emitted under.
- The request funnel's authorization, the room registry's subscription state and role-based permission evaluation. The room registry and the storage engine enter only as the lists they return.
- The check that the numeric type extends the base validation type: it is a class-hierarchy fact with no behaviour.
- `Numeric.Rejection`: states nothing about a value equal to `min` or `max`. No test decides it (the body compares strictly).
- `Numeric.SomeNumberAccepted`: excludes a range with `min == max`, for the same reason.
- NaN and the infinities: reals have neither, and no test uses them.
- `Numeric.NumericType.Validate`: requires options that satisfy `ValidSpecification`. Options reach it only after `ValidateFieldSpecification` accepted them, and the JavaScript coercions of comparing a number with a non-number are not modelled.
- `Numeric.ValidateFieldSpecification`: every test has exactly one fault, so the tests do not decide which error wins when several checks fail at once. The model chose an order and its contract states it: a non-object `range` or an unknown property wins over a bad `min` or `max`, and a bad `min` wins over a bad `max`. An implementation that walks the properties in insertion order could instead report `range.max` for `{max: "x", min: "y"}`, where the model reports `range.min`.
- `Numeric.ValidateFieldSpecification`: no test decides options without `range`, or with an empty `range` object. The model accepts both, and its contract states that. Other type options next to `range` are not inspected.
- `Numeric.NumericType.constructor`: the tests assert only that `allowedTypeOptions` is an array. Its content `["range"]` is the one option `ValidateFieldSpecification` recognises.
- `ReadController.ListCollectionsOf`: no test decides whether a facet that was not requested is absent or empty. The model leaves it absent. The order of names within a facet is kept as the source gave it; the tests sort the returned arrays before comparing.
- `ReadController.ParseType`: no test decides a `type` that is present but `undefined`, `null` or the empty string. The model treats only an absent `type` as `all` and rejects those values.
- The message text of the `BadRequestError` for an unsupported `type` is not asserted and is not modelled.
