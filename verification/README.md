# clean-code: transaction dispatcher, credential check and rectangle, in Dafny

This project models the three pieces of live logic in the clean-code example
repository:

- **Transaction batch processor** (`src/clean-control-structure.js`). A batch
  is rejected as a whole when it is absent or empty. Otherwise each transaction
  is validated on its own: status `OPEN`, type `PAYMENT` or `REFUND`. It is then
  dispatched on the exact string of its method (`CREDIT_CARD`, `PAYPAL`,
  `PLAN`) to one of six handlers, each of which prints one line. Every
  per-transaction error is caught and reported, and the loop goes on. That
  includes the TypeError thrown when an unknown method leaves a null handler.
- **Credential predicate** (`src/side-effects.js`). `isValid` requires an `@`
  in the email and a password of at least seven characters. `createUser` is the
  only place that logs, and it logs only when `isValid` fails.
- **Rectangle** (`src/naming.py`). A rectangle has a starting point, a width
  and a height. It has an area and two end points, and `print_coordinates`
  prints its four coordinates.

Console output is the value the functions return. `LogEntry` covers the
dispatcher: `Line(text)` is a handler's line and `ErrorReport(message, item)`
is a `showErrorMessage` call, where item `None` is the default `{}`. The other
two scripts return a `seq<string>` of printed lines. A thrown JavaScript
`Error` is a `Failure`/`Fail` value. Its `message`, `code` and `item`
properties become fields, and an absent property is `None`. An absent batch
(the falsy case of `!transactions`) is `None`. Transactions, points and
rectangles are immutable datatypes, so no operation can change its input.

Modules: `Wrappers` (Option/Result/Outcome), `Transactions`, `Credentials`,
`PyInt` (Python's `str()` on integers, used by `print_coordinates`) and
`Geometry`.

Three facts about the code that shape the model:
- Type, status and method are plain strings compared with `===`, so invalid
  values are representable and reach the error paths.
- The empty-batch error is caught by `main`'s `try`/`catch` and printed with
  no item.
- JavaScript's `password.length` counts UTF-16 code units. Email and password
  are modelled as well-formed strings only. For those, `Utf16Length` counts a
  character outside the Basic Multilingual Plane as two, and
  `PasswordLengthThreshold` shows this is the plain character count for all
  other passwords.

## Model

| member | source | states |
|---|---|---|
| `Transactions.MethodNameInjective` | src/clean-control-structure.js:1-3 | The three method constants are pairwise distinct, so at most one branch of the dispatch table can match. |
| `Transactions.IsOpen` | src/clean-control-structure.js:127-129 | A transaction is open iff its status is exactly the string OPEN. |
| `Transactions.IsPayment` | src/clean-control-structure.js:131-133 | A transaction is a payment iff its type is exactly the string PAYMENT. |
| `Transactions.IsRefund` | src/clean-control-structure.js:135-137 | A transaction is a refund iff its type is exactly the string REFUND. |
| `Transactions.UsesTransactionMethod` | src/clean-control-structure.js:123-125 | A transaction uses a method iff its method string equals the given one exactly. |
| `Transactions.ValidatedElseIsRefund` | src/clean-control-structure.js:131-137 | No type is both PAYMENT and REFUND, so on any PAYMENT or REFUND transaction the refund handler is chosen exactly when the type is REFUND. |
| `Transactions.HandlerPrefixSpelledOut` | src/clean-control-structure.js:162-188 | Each handler's literal text is "Processing " + its method label + " " + its operation word + " for amount: ". |
| `Transactions.HandlerLine` | src/clean-control-structure.js:162-188 | A handler prints exactly one line: its method label (credit card / PayPal / plan), its operation (payment / refund) and the amount, unchanged. |
| `Transactions.GetTransactionProcessors` | src/clean-control-structure.js:103-125 | Both handlers are present iff the method string is exactly one of the three constants. A present payment (refund) handler belongs to that method and prints a payment (refund). |
| `Transactions.Call` | src/clean-control-structure.js:96-100 | Calling a present handler yields exactly the line for its method, operation and the transaction's amount. Calling a null handler throws a TypeError with no item and no code. |
| `Transactions.ProcessWithProcessor` | src/clean-control-structure.js:93-121 | A known method yields the expected line for PAYMENT, or the refund line otherwise. An unknown method throws the null-handler error for that operation. |
| `Transactions.ValidateTransaction` | src/clean-control-structure.js:80-91 | Passes iff status is OPEN and type is PAYMENT or REFUND. Failure is "Invalid transaction type!", with no item when the status fails (checked first) and with the transaction when only the type fails. |
| `Transactions.ShowErrorMessage` | src/clean-control-structure.js:66-69 | An error report holds the message and the item, and the item defaults to `{}` (`None`) when the caller passes none. |
| `Transactions.ProcessTransaction` | src/clean-control-structure.js:71-100 | Closed gives an error with no item. OPEN with a bad type gives an error with the transaction. A valid one with a known method gives exactly the expected handler line. A valid one with an unknown method gives the null-handler error with no item. A line appears iff all three checks pass. |
| `Transactions.ProcessEach` | src/clean-control-structure.js:49-51 | The loop yields one entry per transaction, in order, and entry i depends only on transaction i. |
| `Transactions.ProcessEachAppend` | src/clean-control-structure.js:49-51 | The output of a concatenated batch is the concatenation of the outputs. |
| `Transactions.ProcessEachIsolated` | src/clean-control-structure.js:71-78 | Replacing one transaction, failing or not, changes that transaction's entry and no other. |
| `Transactions.ValidateTransactions` | src/clean-control-structure.js:54-64 | Throws iff the batch is absent or has length 0, with message "No transactions provided!", code 1 and no item. |
| `Transactions.IsEmpty` | src/clean-control-structure.js:62-64 | A batch is empty iff it is absent or has length 0. |
| `Transactions.ProcessTransactions` | src/clean-control-structure.js:46-52 | Throws the code-1 error iff the batch is empty, before anything is processed. Otherwise it throws nothing and yields one entry per transaction, each that transaction's own output. |
| `Transactions.Run` | src/clean-control-structure.js:39-44 | An empty or absent batch prints exactly one report, "No transactions provided!" with `{}`. Any other batch prints the per-transaction outputs in order. |
| `Transactions.SampleBatchOutput` | src/clean-control-structure.js:8-37 | `main`'s batch prints the credit-card payment of 23.99, the PayPal payment of 100.43, the credit-card refund of 10.99, then one item-less report for the closed t4. |
| `Transactions.ProcessMethodTransaction` | src/clean-control-structure.js:139-160 | For PAYMENT or REFUND, the per-method helper prints exactly that method's line, whatever the status. For any other type it prints nothing. |
| `Transactions.MethodHelperAgreesWithDispatch` | src/clean-control-structure.js:139-160 | For a PAYMENT/REFUND transaction with method m, the helper for m prints the same line as table dispatch. |
| `Credentials.Includes` | src/side-effects.js:35 | `includes` is true iff the needle occurs at some start index of the string. |
| `Credentials.IncludesCharacter` | src/side-effects.js:35 | Searching for a one-character string is the same as that character occurring anywhere. |
| `Credentials.Utf16Length` | src/side-effects.js:35 | A string's JavaScript length is between its character count and twice that count. |
| `Credentials.Utf16LengthAppend` | src/side-effects.js:35 | The JavaScript length of a concatenation is the sum of the lengths. |
| `Credentials.BmpLength` | src/side-effects.js:35 | For characters inside the Basic Multilingual Plane, the JavaScript length is the character count. |
| `Credentials.IsValid` | src/side-effects.js:34-39 | True iff `@` occurs somewhere in the email and the password length is at least 7. |
| `Credentials.CreateUser` | src/side-effects.js:27-32 | Logs nothing iff the credentials are valid. Otherwise it logs exactly the one line "Invalid input!". |
| `Credentials.PasswordLengthThreshold` | src/side-effects.js:35 | With an `@` in the email and a plain-character password, acceptance is exactly length at least 7. |
| `Credentials.PasswordBoundary` | src/side-effects.js:35 | With an `@` in the email, a password of length 7 is accepted and one of length 6 is rejected. |
| `Credentials.EmailWithoutAtRejected` | src/side-effects.js:27-39 | An email without `@` is rejected whatever the password, and `createUser` then logs "Invalid input!". |
| `Credentials.AtPositionIrrelevant` | src/side-effects.js:35 | An `@` at the first, last or any inner position satisfies the email check alike. |
| `Credentials.ExtendedPasswordStaysValid` | src/side-effects.js:35 | Appending characters to an accepted password keeps it accepted. |
| `Credentials.ExamplesHold` | src/side-effects.js:34-39 | ("a@b.com", "1234567") is accepted. ("ab.com", "1234567") and ("a@b.com", "123") are rejected. |
| `PyInt.NatToString` | src/naming.py:19-22 | The decimal form of a natural number is a non-empty digit string that starts with 0 only for zero. |
| `PyInt.Str` | src/naming.py:19-22 | `str()` of an integer is canonical text: an optional `-` (present iff the integer is negative), then digits with no leading zero unless the value is 0, and never `-0`. |
| `PyInt.ParseNatToString` | src/naming.py:19-22 | Reading the decimal digits back gives the natural number. |
| `PyInt.ParseStr` | src/naming.py:19-22 | `int(str(n)) == n` for every integer n. |
| `PyInt.StrInjective` | src/naming.py:19-22 | Distinct integers print differently. |
| `PyInt.ParseNatAtLeastLeadingDigit` | src/naming.py:19-22 | A digit string is worth at least its leading digit, so one without a leading zero is positive. |
| `PyInt.NatToStringParseNat` | src/naming.py:19-22 | Every digit string without a leading zero (or exactly 0) is the decimal form of its value. |
| `PyInt.StrParse` | src/naming.py:19-22 | `str(int(s)) == s` for every canonical text, so the texts `str()` prints are exactly the canonical ones. |
| `Geometry.Area` | src/naming.py:13-14 | The area is non-negative when width and height are, and zero iff one of them is zero. |
| `Geometry.TopRight` | src/naming.py:17 | The top-right end point is the starting x plus the width. |
| `Geometry.BottomLeft` | src/naming.py:18 | The bottom-left end point is the starting y plus the height. |
| `Geometry.EndPointsSpanRectangle` | src/naming.py:16-18 | The top-right x is one width from the start x. The bottom-left y is one height from the start y. Together they span exactly the area. |
| `Geometry.PrintCoordinates` | src/naming.py:16-22 | Exactly four lines in order: start x, start y, start x + width, start y + height. Each is its caption followed by canonical integer text that reads back as that value, which by `DisplaysExactly` fixes the line's text. |
| `Geometry.DisplaysExactly` | src/naming.py:19-22 | A line shows an integer under its caption iff it is the caption followed by `str()` of that integer. |
| `Geometry.BuiltRectangleFacts` | src/naming.py:25-29 | The built rectangle has origin (50, 100), width 90 and height 10, so area 900 and end points 140 and 110. |
| `Geometry.BuildRectangle` | src/naming.py:25-29 | `build_rectangle` returns the rectangle with origin (50, 100), width 90 and height 10. |
| `Geometry.ScriptOutput` | src/naming.py:32-35 | The script prints the area of the built rectangle, then its four coordinate lines. |
| `Geometry.ScriptOutputText` | src/naming.py:32-35 | The script prints "900" and then the four coordinate lines with 50, 100, 140 and 110. |

## Left out

- `initApp`, `connectDatabase` and `determineSupportAgent` (src/side-effects.js:1-25): they depend on `database.connect`, `findStandardAgent` and `findAgentByRequestType`, which these files never define. So `initApp`'s log line "Could not connect to database!" when the connection fails, `connectDatabase`'s boolean wrapping, and `determineSupportAgent`'s `'unknown'` branch are not modelled.
- The commented-out "before" versions in src/side-effects.js and src/naming.py: they are contrast examples, not live code.
- Real console I/O: output is the returned sequence. `showErrorMessage` prints two console lines, the message and then the item. Both are one `ErrorReport` entry here.
- The wording of the TypeError thrown by calling a null handler is engine-specific. It is the opaque `NullHandlerCall(operation)`, which records only which handler slot was called.
- `amount` is a decimal string that is only concatenated into output. It stays an uninterpreted string and is never parsed as a number.
- Call-time evaluation of `main()` at module load: `Run` takes the batch as a parameter, and `SampleBatchOutput` covers the literal batch.
- Batches that are truthy but not arrays (objects without `length`, strings): only absent and array batches are representable.
- Batch elements that are `null` or `undefined`: `isOpen` then throws a TypeError inside `processTransaction`'s `try` (src/clean-control-structure.js:72-77, 127-128). It is caught for that item alone and printed as a report with no item. `Transaction` cannot represent such an element, so that path is not modelled.
- Python `str()` of floats and other non-integer values: the coordinates are `int`, as `build_rectangle` uses. Python integers are unbounded, like Dafny's `int`.
- Credentials.IsValid: email and password are modelled as well-formed Dafny strings only, which hold Unicode scalar values. These JavaScript inputs are not representable:
  - strings with unpaired surrogates (seven `\uD800` code units have `length` 7 and are accepted);
  - arguments that are not strings (`isValid("a@b.com", 12345)` is true, because `(12345).length` is `undefined` and `undefined < 7` is false);
  - an `undefined` or `null` email, which makes `includes` throw a TypeError that `createUser` does not catch.
- Credentials.CreateUser: inherits these gaps from `IsValid`.
- PyInt.Str: does not model the `ValueError` that CPython 3.11 and later raise for `str()` of an integer with more than 4300 decimal digits. That limit depends on the interpreter version and can be changed at run time (`sys.set_int_max_str_digits`, `-X int_max_str_digits`), so the repository does not fix it. The model's `str()` is total.
- Geometry.PrintCoordinates: inherits that gap from `PyInt.Str`. A coordinate or end point over the digit limit would raise instead of printing. The script's own values have at most three digits.
