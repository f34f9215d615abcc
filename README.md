# AlphaSMS gateway client, modelled in Dafny

The `AlphaSms` class (`AlphaSms.php`) is a client for the AlphaSMS XML
gateway. It checks its credentials when it is built. It then offers four
operations: `message` (send an SMS, Flash, Push or Voice message), `status`,
`delete` (remove a queued message) and `balance`. Each operation validates
the caller's `$data` array. It then builds a `package` request document
holding the credentials and one operation element, and posts that document
to the gateway.

This project models everything that happens before the post:

- `Php.dfy` covers the PHP values found in `$data` (null, integers, strings)
  and the PHP operations the client uses on them: `isset`, truthiness,
  conversion to string, `strlen` (UTF-8 bytes), loose `==` against an
  integer, and `<=>` (used for `>=`).
- `Xml.dfy` models the request document as an element tree: a name, an
  ordered attribute list, text content and children.
- `Protocol.dfy` gives the request format as a datatype of requests. `Encode`
  maps a request to its tree and `Decode` reads a tree back. The two are
  proved inverse in both directions.
- `AlphaSms.dfy` holds module `Gateway`, with the class `AlphaSms`. It keeps
  the same fields as the source: immutable credentials, and mutable
  `sender`, `typeMessage` and `operation`. Its methods update those fields
  exactly where the PHP code does, and each one returns either an `Error` or
  the request tree. The validation rules are also written as pure functions
  (`CheckConfig`, `CheckMessage`) with declarative characterisations.
- `Properties.dfy` proves what every request tree looks like, and what an
  accepted message guarantees about its request.
- `Scenarios.dfy` contains client-level call sequences: the example message
  and balance requests, a sender carried over between calls, and a failed
  call that leaves a bad sender behind.

The model follows what the code does, including these behaviours that a
reader of the request format alone might not expect:

- The sender limit of 11 is checked with `strlen`, so it counts bytes, not
  characters. A Cyrillic sender of 6 letters (12 bytes) is refused.
- "Truthy" below means PHP truthiness: not null, `0`, `""` or `"0"`. A Push
  message needs a truthy `url`, so a `url` that is present but `""` or `"0"`
  is refused too.
- `status` and `delete` only test `isset`, so `id => ""` is accepted and sent
  as `id=""`.
- Both credential modes may be given at once. The key wins when it is truthy.
  A key that is set but falsy (`""` or `"0"`) passes the constructor, but
  the request then carries `login` and `password`. These are empty strings
  when they were not given (`Properties.FalsyKeyFallsBackToLogin`).
- A message whose caller gave no `id` (or a null one) gets the generated id
  (`Scenarios.SendExample`). A caller's falsy `id` (`""`, `0` or `"0"`) is
  set, so no id is generated, and it is then left out of the request; a
  falsy generated id is left out the same way. So a message request carries
  an `id` unless the id it ends up with is falsy.
- Per-call state is kept in instance fields, not passed along with the call.
  A per-call sender is written to `sender` before any check, so it survives
  the call even when the call fails (`Scenarios.FailedSenderSticks`).
  `typeMessage` is written before the url and window checks.

## Model

| member | source | states |
|---|---|---|
| `Gateway.CheckConfig` | AlphaSms.php:124-128 | Construction fails with "Invalid configuration" exactly when login, password and key are all null. It fails with "Invalid login or password" when the key is null and only one of login and password is given. A key alone, or a login with a password, is accepted. |
| `Gateway.AlphaSms.constructor` | AlphaSms.php:117-122 | Requires credentials that pass the check of lines 124-128 and yields a valid client. It stores login, password, key and default sender as given. No operation is set yet and the message type starts as SMS (line 85). |
| `Gateway.AlphaSms.Create` | AlphaSms.php:117-129 | Yields a client exactly when the credential check passes, otherwise the check's error. The client holds the given credentials and sender. |
| `Gateway.CheckMessage` | AlphaSms.php:157-201 | Accepts a message exactly when all of these hold: the resolved sender is truthy and at most 11 bytes; `text` and `recipient` are truthy; a Push message has a truthy `url`; and when both window ends are truthy, `date_beg < date_end`. The error is the first failing check in source order. |
| `Gateway.FillId` | AlphaSms.php:177-179 | Once the recipient check has passed, a caller-supplied `id` is kept unchanged and the generated id is added only when `id` is absent. The recipient disjunct is therefore dead. No other key changes. |
| `Gateway.AlphaSms.Message` | AlphaSms.php:155-208 | A per-call sender always replaces the stored one. The call fails exactly when `CheckMessage` does, with its error. `typeMessage` becomes the resolved type once text and recipient have passed. `operation` becomes `message` only on success. On success the result is the encoding of the message request built from the new sender, type and id-filled data. |
| `Gateway.AlphaSms.Status` | AlphaSms.php:220-231 | Fails with the missing-identifier error exactly when neither `id` nor `sms_id` is set, leaving `operation` unchanged. Otherwise it sets `operation` to `status` and returns a status request carrying the identifiers that are set. |
| `Gateway.AlphaSms.Delete` | AlphaSms.php:243-254 | Same rule as `status`, with a `delete` request. |
| `Gateway.AlphaSms.Balance` | AlphaSms.php:261-268 | Never fails. Sets `operation` to `balance` and returns the balance request. |
| `Gateway.AlphaSms.GetRequestString` | AlphaSms.php:291-335 | The tree built step by step is the encoding of the request described by the current operation, the stored sender and type, and the data. It decodes back to exactly that request. |
| `Gateway.AlphaSms.IdsElement` | AlphaSms.php:296-308 | The status/delete `msg` has no text and carries `id` and then `sms_id`, each only when it is set. |
| `Gateway.AlphaSms.MessageElement` | AlphaSms.php:310-329 | The message `msg` holds the text and carries `recipient`, `sender` and `type`. It then carries `id` if truthy, `url` if truthy and Push, and `date_beg`/`date_end` (as ISO 8601 dates) if truthy. |
| `Gateway.AlphaSms.InitRequestBody` | AlphaSms.php:344-356 | The `package` root carries only `key` when the key is truthy, else `login` then `password`. Its credentials decode back to the client's. |
| `Protocol.RoundTrip` | AlphaSms.php:291-356 | Reading a request tree back recovers the operation and every attribute it was built from. |
| `Protocol.DecodeExact` | AlphaSms.php:291-356 | A tree that reads back as a request is exactly that request's encoding. The format therefore has one tree per request. |
| `Properties.PackageShape` | AlphaSms.php:291-356 | Every request is a `package` with `key`, or with `login` and `password`. It has exactly one child, named after the operation. That child is empty for `balance` and otherwise holds one `msg`. |
| `Properties.IdsShape` | AlphaSms.php:296-308 | A status or delete `msg` carries exactly those of `id` and `sms_id` that were supplied, with their values. |
| `Properties.MessageShape` | AlphaSms.php:310-329 | The exact ordered attribute list of a message `msg`: `recipient`, `sender` and `type` always, `id`, `date_beg` and `date_end` only when truthy, `url` only for a truthy Push url. It also gives the values of the first three attributes and the text. |
| `Properties.AcceptedMessage` | AlphaSms.php:155-205 | For an accepted message, the sender is a non-empty string of at most 11 bytes (so at most 11 characters). Text and recipient are truthy, so their string forms are non-empty. An integer `type` reads back from its attribute as the same number. An `id` the caller set is kept (and sent only if truthy); the generated id is used only when none is set (and sent only if truthy). `url` is present exactly for Push, and the window is in order. |
| `Properties.EqualWindowRejected` | AlphaSms.php:194-201 | Equal window ends are refused, with the window error once the earlier checks pass. |
| `Properties.PushSpellings` | AlphaSms.php:187-192 | The Push test is a loose `==`: `2`, `"2"`, `"+2"` and `"02"` are Push, while `0`, `"two"` and `"-2"` are not. |
| `Properties.ValidClientAuth` | AlphaSms.php:348-353 | A valid client (one that passed the constructor's check) sends its key when the key is truthy. When its key is null, it sends a login and a password that were both given. |
| `Properties.FalsyKeyFallsBackToLogin` | AlphaSms.php:348-353 | Keys `""` and `"0"` pass the constructor without a login, yet the request carries empty `login` and `password` instead of the key. |
| `Php.LooseEqualsIntMeaning` | AlphaSms.php:188-189 | `$v == n` holds exactly when `v` is an integer or integer numeric string denoting `n`, or when `v` is null and `n` is 0. |
| `Php.CompareReflexive` | AlphaSms.php:198 | Every value compares equal to itself, so `$a >= $a` holds. |
| `Php.Utf8LengthBounds` | AlphaSms.php:163 | `strlen` counts between one and four bytes per character. |
| `Php.ParseIntDecimal` | AlphaSms.php:315 | The string form of any integer is numeric and denotes that integer. |
| `Scenarios.SendExample` | AlphaSms.php:155-208 | A key client sending `Hi` to `380501234567` from `Shop` as SMS produces `package key="K"` containing `message`, which contains `msg recipient sender type="0" id` with text `Hi`. |
| `Scenarios.BalanceExample` | AlphaSms.php:261-268 | A key client's balance request is `package key="K"` containing an empty `balance`. |
| `Scenarios.SenderCarriesOver` | AlphaSms.php:157-159 | After a call with sender `Shop`, a call without a sender succeeds and sends `Shop`. |
| `Scenarios.FailedSenderSticks` | AlphaSms.php:157-161 | An empty per-call sender fails the call and replaces the configured sender, so the next call without a sender fails too. |

## Left out

- `run` (sending): the cURL POST to `http://alphasms.com.ua/api/xml.php` with its 20-second timeout, the HTTP status read, response parsing and the `die` on a bad response or a cURL error. This is network I/O and process termination. The operations return the request tree that `run` would post. The `responseStatusCode` and `responseObject` fields belong to `run` and are not modelled.
- `formatXML`: DOM pretty-printing to a string. The model stops at the element tree.
- `generateUnicId`: it reads the wall clock. The generated id is the `generatedId` parameter of `Message`.
- `date(DATE_ISO8601, …)`: calendar formatting. A window end is kept as the symbolic attribute value `IsoDate(timestamp)`.
- Yii's `InvalidConfigException` and component configuration: replaced by the `Error` datatype, whose `Description` gives each message text. The throwing constructor becomes the factory `Create`.
- PHP values in `$data` other than null, integers and strings (booleans, floats, arrays) are not modelled.
- `Php.LooseEqualsIntMeaning` and `Php.Compare` treat only optionally signed digit strings as numeric. Numeric strings with surrounding whitespace, a decimal point or an exponent are not modelled, and neither is the overflow of 64-bit integers into floats.
- SimpleXML details are not modelled: text escaping in `addChild` (a bare `&`), and what `addAttribute` does with a repeated name (the client never repeats one). The tree is built as a value. Each child is attached once it is complete, not through a live handle, so the finished tree is the same but the order of mutations differs.
- `Gateway.AlphaSms.GetRequestString` requires that an operation is set. Every caller sets one just before.
- Every operation of `Gateway.AlphaSms` requires a valid client. The PHP object can only exist once its constructor's check has passed, and the Dafny constructor requires that check.
- PHP version: loose `==` (line 188) and `>=` (line 198) follow PHP 8. Under PHP 5 and 7, a leading-numeric string such as `"2abc"` equals `2`, so `type => "2abc"` would be Push and need a url; an integer compared with a non-numeric string is compared as numbers there. Those older rules are not modelled.
- Invalid timestamps: `date(DATE_ISO8601, …)` (lines 325 and 328) throws a `TypeError` under PHP 8 when a truthy window end is not numeric (`"tomorrow"`). The model accepts such a message and sends the symbolic value `IsoDate(Str("tomorrow"))`; that runtime error path is not modelled.
- String encoding: PHP strings are byte strings, but the model's strings are Unicode strings and `strlen` is their UTF-8 length. A sender in a one-byte encoding such as windows-1251 (one byte per Cyrillic letter) or a string that is not valid UTF-8 cannot be represented.
