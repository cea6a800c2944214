# Student form: request validation and coercion

This project models the decision-making part of a small student-registration
system. The system collects a student's name, roll number and address in one
of two ways:

- **Manual form.** A React page sends the filled-in form to the server's
  `/submit` endpoint.
- **Free text.** The page sends a spoken sentence to `/ai`. The server asks a
  language model to turn it into JSON, then validates and coerces the JSON and
  stores one row.

The model covers four things:

- **`/submit` handler.** It guards on the truthiness of the three body fields.
  It then stores the values unchanged.
- **`/ai` handler.** It runs a text guard, then the model's reply, then
  JSON.parse, `parseInt(parsed.rollno, 10)`, truthiness checks, `.trim()` and
  one create.
- **JavaScript semantics the handlers rely on.** These are the value shapes
  JSON can produce, `ToBoolean`, `parseInt` (with Number-to-string formatting)
  and `String.prototype.trim`.
- **The page's form state.** This covers `handleChange`, `handleSubmit` and
  the two buttons that are disabled while `loading`.

Each handler is a method over a `Store` class, an append-only table. Each
handler is proved equal to a specification function: `SubmitSpec`, or
`AiSpec`/`ExtractSpec`. The promised properties are stated on those functions
and in lemmas. The page is an `App` class with `form` and `loading` fields.
Its methods are proved against `Changed` and `PayloadOf`.

Modules:

| file | module | contents |
|---|---|---|
| wrappers.dfy | `Wrappers` | `Option` |
| js_values.dfy | `JsValues` | `JsValue`, `ToBoolean`, property access, white space and digits |
| js_strings.dfy | `JsStrings` | white-space scans and `Trim` |
| parse_int.dfy | `ParseInt` | `parseInt` on strings, Numbers and any value |
| server.dfy | `Server` | `Store`, `/submit`, `/ai` |
| form.dfy | `Form` | the page's state machine |

Inputs from the outside world are parameters:

- **Body.** The request body is a `JsValue`; `Undefined` means no body.
- **Model reply.** `ModelReply` is either the reply text or a failed call.
- **JSON.parse.** It is a function `string -> Option<JsValue>`.
- **Database.** `DbOutcome` is either a generated id or a failure.
- **Request outcome.** On the page, the outcome of the request is
  `FetchOutcome`.

Behaviour of the code that is easy to get wrong, as modelled:

- **`/submit` does no coercion or trimming.** It stores `rollno` exactly as
  sent. Its check is truthiness, so roll number `0` is refused there. `/ai`
  accepts 0, because `parseInt` gives 0, not NaN.
- **`/ai` checks truthiness before trimming.** A blank name passes and is
  stored as `""`.
- **`/ai` accepts any `rollno` that `parseInt` reads.** For example `"12abc"`
  is read as 12 and `45.9` as 45.
- **Some failures give 500, not 400.** This happens when the reply is JSON
  `null`, when a truthy name or address is not a string, and when the value's
  string conversion throws.
- **The page clears the form once any response body is read.** That includes
  a refusal.

## Model

| member | source | states |
|---|---|---|
| JsValues.ToBoolean | server/src/index.js:32 | definition of truthiness, the test behind every `!v` in the handlers; FalsyValues states which values are falsy |
| JsValues.Prop | server/src/index.js:31 | definition of `v.key` for a value that is not null or undefined: an own property of an object, otherwise undefined; the requires is the TypeError that property access on null or undefined throws |
| JsValues.OrEmpty | server/src/index.js:31 | defaulting the body to `{}` keeps a truthy body and replaces a falsy one by a value on which every property reads as undefined; the result is never null or undefined, so destructuring cannot throw |
| JsValues.FalsyValues | server/src/index.js:32 | `!v` is true exactly for undefined, null, false, a zero Number and the empty string; every other value is truthy, each array, object and infinity included |
| JsValues.IsDigit | frontend/src/App.js:11 | definition of an ASCII decimal digit: the complement of `\D` and the radix-10 digit set of `parseInt`; KeepDigits and KeepDigitsCounts state the filter, and DigitsEnd and ParseIntString state the parse |
| JsValues.IsWhiteSpace | server/src/index.js:95-97 | definition of the WhiteSpace and LineTerminator code points that `trim()` and `parseInt` skip; SkipBlanks, SkipBlanksBack and Trim state what is done with them |
| JsStrings.SkipBlanks | server/src/index.js:87 | finds the first non-white-space index at or after i; everything skipped is white space |
| JsStrings.SkipBlanksBack | server/src/index.js:95 | finds the end of the last non-blank before j; everything after it up to j is white space |
| JsStrings.Trim | server/src/index.js:95-97 | `trim()` returns a slice of s with only white space around it; the slice neither starts nor ends with white space; it is empty exactly when s is all white space |
| JsStrings.TrimIdempotent | server/src/index.js:95-97 | trimming a trimmed string changes nothing |
| ParseInt.DecimalValue | server/src/index.js:87 | the value of a digit string is below 10 to the power of its length |
| ParseInt.DigitsEnd | server/src/index.js:87 | finds the longest run of decimal digits from i: every character in it is a digit, and the next one is not |
| ParseInt.IntegerToNumber | server/src/index.js:87 | the Number value of an integer is never NaN; it is the integer itself when its magnitude is below 2^1024 - 2^970, and an infinity of the integer's sign from there on |
| ParseInt.NumberValue | server/src/index.js:96 | the stored value of a Number other than NaN is falsy exactly when it is 0 |
| ParseInt.DigitsStart | server/src/index.js:87 | definition of where parseInt looks for digits, after the leading white space and at most one sign; ReadsAsUnique and ParseIntString state that this is the only possible reading |
| ParseInt.ReadsAsUnique | server/src/index.js:87 | a string reads as a number (blanks, one optional sign, a non-empty digit run ending at a non-digit) in at most one way, the one parseInt's scan finds |
| ParseInt.ParseIntString | server/src/index.js:87-88 | parseInt of a string is NaN exactly when no reading exists; otherwise it is the Number value of that reading, negated after a '-' |
| ParseInt.ParseIntDigits | frontend/src/App.js:24 | parseInt of a non-empty digit string is the Number value of its decimal value |
| ParseInt.LeadingZero | frontend/src/App.js:24 | a leading "0" does not change a digit string's value |
| ParseInt.ParseIntStopsAt | server/src/index.js:87 | parseInt never reads past the first character that is not white space, a sign or a digit (this is why an array reads as its first element) |
| ParseInt.NumDigits | server/src/index.js:87 | gives k with 10^(k-1) <= m < 10^k, the exponent by which Number-to-string picks plain or exponent notation |
| ParseInt.LeadingDigit | server/src/index.js:87 | gives a digit from 1 to 9, the only digit parseInt reads from exponent notation |
| ParseInt.LeadingDigitBounds | server/src/index.js:87 | LeadingDigit(m) is the d with d * 10^(k-1) <= m < (d+1) * 10^(k-1) |
| ParseInt.Truncate | server/src/index.js:87 | the integer part of a Number in plain notation keeps the Number's sign |
| ParseInt.NumberParseInt | server/src/index.js:87-88 | a finite Number always reads as an integer, never NaN, and of the Number's own sign |
| ParseInt.ToStringThrows | server/src/index.js:67 | definition of when ToString throws: an object with its own "toString" key, or an array holding such a value; ParseIntValue and AiSpec state its effects |
| ParseInt.ParseIntValue | server/src/index.js:87-88 | parseInt of any value throws exactly when its ToString does; a finite Number reads as an integer of its sign; undefined, null, the booleans, the infinities, the empty string and plain objects read as NaN |
| ParseInt.NoNumberAhead | server/src/index.js:87-88 | a string whose first character is neither white space, a sign nor a digit reads as NaN |
| ParseInt.WordsHaveNoDigits | server/src/index.js:87-88 | "undefined", "null", "true", "false", "Infinity", "-Infinity", "[object Object]" and "" read as NaN |
| ParseInt.IntegerParsesToItself | server/src/index.js:87 | an integer Number below 10^21 in absolute value is read back unchanged |
| ParseInt.TrailingTextIgnored | server/src/index.js:87 | parseInt("12abc") is 12 |
| ParseInt.NoDigitsIsNaN | server/src/index.js:87-88 | "abc", "" and " -" give NaN |
| ParseInt.SignAfterBlanks | server/src/index.js:87 | leading white space is skipped and one minus sign read: " \t-7 " gives -7 |
| ParseInt.HexPrefixNotRead | server/src/index.js:87 | with radix 10, "0x1A" gives 0 |
| ParseInt.NumberParseIntExamples | server/src/index.js:87 | Numbers are cut toward zero (45.9 gives 45, -45.9 gives -45, 0.000001 gives 0); 1e21 and 1.5e-7 give 1 |
| ParseInt.ObjectAndArrayExamples | server/src/index.js:87 | an object with its own "toString" key makes parseInt throw; ["12abc", 3] gives 12 |
| Server.Store.Create | server/src/index.js:36-38 | a successful create appends exactly one row with the given values and the generated id; a failed create leaves the table unchanged |
| Server.FieldsPresent | server/src/index.js:31-32 | definition of the `/submit` guard: name, rollno and address of the body, defaulted to `{}`, are all truthy; SubmitSpec states its use |
| Server.SubmitSpec | server/src/index.js:29-45 | 400 "All fields required" with no row exactly when name, rollno or address is falsy. Otherwise one row with the body's three values unchanged and 200 "Data saved successfully" with that row, or 500 "Server error" with no row when the database fails |
| Server.Submit | server/src/index.js:29-45 | the handler's response and the table after it are those SubmitSpec gives |
| Server.Extractable | server/src/index.js:87-97 | definition of a reply value that yields a row: property access works, parseInt of rollno returns a Number other than NaN, and name and address are non-empty strings; ExtractSpec states its use |
| Server.Incomplete | server/src/index.js:87-89 | definition of the 400 case: rollno was read without throwing, and name or address is falsy or the read gave NaN; ExtractSpec states its use |
| Server.ExtractSpec | server/src/index.js:86-105 | a row is created iff the parsed value is extractable and the database succeeds. The row holds the trimmed name and address and rollno as parseInt read it, and the response is 200 "AI auto-submitted form". 400 "Incomplete or invalid data from AI" echoing the value exactly when rollno was read but name or address is falsy or rollno is NaN; every other outcome is 500 "AI request failed" with no row |
| Server.Text | server/src/index.js:52 | definition of the `text` field of the body, defaulted to `{}`; AiSpec states its use |
| Server.AiSpec | server/src/index.js:50-106 | falsy text gives 400 "Text is required" with no row and nothing else consulted. Truthy text whose ToString throws, or a failed model call, gives 500 "AI request failed". A reply that does not parse gives 500 "AI response invalid" with the reply verbatim; a reply that parses is decided by ExtractSpec. A row is created only that way, and status 200 occurs exactly when a row is created |
| Server.Ai | server/src/index.js:50-106 | the handler's response and the table after it are those AiSpec gives |
| Server.MissingBodyRefused | server/src/index.js:31-34 | a request without a body is refused with 400 and stores nothing |
| Server.SubmitStoresVerbatim | server/src/index.js:36-38 | `/submit` passes the body values to create unchanged |
| Server.RollZeroOnlyAcceptedByAi | server/src/index.js:32 | rollno 0 is refused by `/submit` but stored as 0 by `/ai` |
| Server.BlankNameStoredEmpty | server/src/index.js:88-97 | a whitespace-only name passes the check and is stored as "" |
| Server.NullReplyFails | server/src/index.js:87 | a JSON null reply gives 500 "AI request failed" and no row |
| Server.InfiniteRollIncomplete | server/src/index.js:87-89 | a reply whose rollno parsed to an infinity (the literal 1e400) reads as NaN, so it gets 400 with the value echoed and no row |
| Server.NonStringNameFails | server/src/index.js:95-97 | a truthy non-string name or address gives 500 and no row |
| Server.AiRowsAreClean | server/src/index.js:93-99 | every row `/ai` creates has string name and address that are already trimmed, and a roll number that is an integer or an infinity |
| Server.DuplicateSubmissions | server/src/index.js:36-40 | two identical submissions store two rows with the same values (no deduplication) |
| Form.KeepDigits | frontend/src/App.js:11 | the filtered roll number holds only digits, is no longer than the input, and leaves a digit string unchanged |
| Form.KeepDigitsAppend | frontend/src/App.js:11 | the filter distributes over concatenation, so the digits stay in their order |
| Form.KeepDigitsCounts | frontend/src/App.js:11 | each digit is kept as many times as it occurs; every other character is dropped |
| Form.KeepDigitsIdempotent | frontend/src/App.js:11 | filtering twice is filtering once |
| Form.Changed | frontend/src/App.js:7-13 | a change event alters only the field it names, and a roll number of digits stays one |
| Form.Filled | frontend/src/App.js:17 | definition of the `handleSubmit` guard, that no field is empty; BeginSubmit states that nothing is sent unless it holds |
| Form.PayloadOf | frontend/src/App.js:22-25 | definition of the payload: the form's strings and `parseInt(rollno, 10)`; PayloadRollIsDecimal states its roll number |
| Form.PayloadJson | frontend/src/App.js:32 | definition of the body `/submit` receives: strings unchanged, an integer roll number as itself, NaN and the infinities as null; ServerRefusesZeroRoll states its effect |
| Form.App.constructor | frontend/src/App.js:4-5 | the form starts empty and not loading |
| Form.App.HandleChange | frontend/src/App.js:7-13 | only the named field changes: name and address become the value verbatim, rollno its digits; `loading` is unchanged and the roll number stays all digits |
| Form.App.BeginSubmit | frontend/src/App.js:16-27 | with an empty field nothing is sent and nothing changes. Otherwise the payload of name, parseInt(rollno) and address is sent and `loading` becomes true, with the form unchanged |
| Form.App.SettleSubmit | frontend/src/App.js:34-42 | `loading` is false afterwards on every path; the form is cleared when a response body was read, whatever its `success`, and kept when the request threw |
| Form.App.ClickTalk | frontend/src/App.js:113 | definition of the Talk button, disabled while `loading`; SubmitWhilePending states that it starts nothing while a submission is pending and works again afterwards |
| Form.App.ClickSubmit | frontend/src/App.js:110 | while `loading`, a click sends nothing and changes nothing; otherwise it behaves as BeginSubmit |
| Form.PayloadRollIsDecimal | frontend/src/App.js:22-25 | for a filled form, the payload's rollno is the Number value of the digits' decimal value: the integer itself, or Infinity past the double range |
| Form.LeadingZerosDropped | frontend/src/App.js:24 | "007" is sent as 7 |
| Form.ServerRefusesZeroRoll | frontend/src/App.js:22-25 | a filled form is refused by `/submit` with 400 exactly when its roll number's value is 0 or at least 2^1024 - 2^970, which parseInt turns into Infinity and JSON.stringify into null |
| Form.SubmitWhilePending | frontend/src/App.js:16-43 | one submission is sent; while it is pending a second Submit click sends nothing and the Talk button (App.js:113) starts nothing; afterwards `loading` is off, the form is cleared or kept, and the Talk button starts capture again |

## Left out

- Express, CORS and dotenv setup, `GET /health`, `app.listen` and the unused
  imports (server/src/index.js:1-27, 150) are framework glue.
- The commented-out earlier `/ai` handler (server/src/index.js:109-146) is
  dead code.
- The Gemini client, the prompt wording and the JSON MIME-type hint are not
  modelled. The reply is an input. The one effect of building the prompt
  that is kept is that `${text}` applies ToString, which can throw.
- JSON.parse is a parameter, not an implementation.
- Prisma and the database are replaced by an append-only sequence.
  - `DbOutcome` supplies the generated id or a failure.
  - Prisma's own type checks are among the failures `DbFailed` stands for.
    Examples are a string `rollno` on `/submit`, or an integer too large for
    the column.
- Logging with `console.error` is not modelled.
- On the page, the following are browser I/O and UI and are not modelled:
  speech recognition, `handleTalk`, the `fetch` call itself, `alert` and the
  JSX rendering.
- `handleTalk`'s asynchronous `onresult` callback is not modelled. It sets
  `loading` around the `/ai` request. Its interleaving with a manual
  submission would be concurrency.
- React's batched, asynchronous `setState` is modelled as immediate
  assignment.
- A finite Number `Num(m, e)` is written as the shortest decimal that
  rounds back to it, m times 10^e. That is the decimal Number-to-string
  conversion prints, and `NumberParseInt` reads its digits from it. The
  request body and `jsonParse` must give each Number in that form: the
  double nearest 1e23 is `Num(1, 23)`, and 0.000001 is `Num(1, -6)`, not
  their exact binary values. The model does not check this.
  - IEEE-754 rounding of a JSON literal is left to the `jsonParse` parameter
    and to the request body given. JSON.parse turns a literal of magnitude
    2^1024 - 2^970 or more (1e400) into an infinity, `NumInfinity`, and one
    too small for a double (1e-400) into 0. A `Num` outside the double range
    is representable but stands for no value JSON.parse returns. The
    outcomes this decides are modelled on the rounded value: on `/ai` an
    infinite rollno reads as NaN and gets 400 (`InfiniteRollIncomplete`),
    and on `/submit` a literal that rounds to 0 is falsy and refused.
  - `parseInt` of a digit string overflows to an infinity from 2^1024 - 2^970
    on, which is modelled (`IntegerToNumber`). Below that bound it returns
    the mathematical integer, so precision loss above 2^53 is not modelled.
  - Prisma refuses an infinite rollno from `/ai` as it refuses any value
    its integer column cannot hold; that refusal is a `DbFailed` outcome.
  - Number-to-string conversion is not produced as text. Instead, `parseInt`
    of a Number follows that conversion's rule for plain versus exponent
    notation.
- Array-to-string conversion is likewise not produced as text. `parseInt` of
  an array reads its first element. `ParseIntStopsAt` proves that the ","
  separator ends parsing.
- Property access finds only own properties of objects. The four keys the
  server reads are not inherited by any JSON value.
- Strings are sequences of Unicode scalar values, whereas JavaScript strings
  are UTF-16 code units. A lone surrogate cannot be represented.
