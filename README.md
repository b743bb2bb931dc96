# Personalised e-mail sender: a Dafny model of its core

The application is a Next.js page. It lets a user upload a spreadsheet of
recipients, write a message template with `${column}` placeholders, choose an
SMTP service, and send one personalised mail per spreadsheet row. This project
models the logic under that user interface:

- **Template personalisation** (`template.dfy`). A template is rendered for one
  row by folding over the row's columns in key order. Each column globally
  replaces the literal token `${column}` with the cell value, or with the empty
  string when the cell is falsy. The HTML body is the rendered text with every
  line feed turned into `<br>`. `Render` is the reference definition and
  `Personalize` is the reassigning loop both call sites run. `RenderFills`
  proves what rendering means: for templates and rows that cannot splice new
  placeholders together, every placeholder of a column of the row is filled
  and everything else stays as it was.
- **The form component** (`form.dfy`). The component's state becomes the class
  `EmailSendingForm`, which covers:
  - accepting an uploaded sheet: it must be non-empty and its first row needs
    an "email" column in any letter case;
  - the two-row preview;
  - `validateForm`, whose error dictionary has an entry exactly for each failed
    check;
  - the sender check `\S+@\S+\.\S+`, proved equal to a positional
    characterisation;
  - `getSmtpConfig`;
  - the request bodies the form posts.
- **The send route** (`send_emails_route.dfy`):
  - the request handler's three guards, in order;
  - the simulated batch the handler always runs, with its `results` tally;
  - the real batch, run against a scripted mail transport: the connection
    check, the Gmail retry with port 465 and implicit TLS, and a per-recipient
    loop that catches each failure and carries on.

  Both batches are loops proved against recursive tallies. Lemmas about those
  tallies give the counts, the error lists and the log lines.
- **The test route** (`test_smtp_route.dfy`). It applies the same credential
  guard, then returns a simulated success that echoes the configuration
  without its password.
- **The stand-in library** (`send_emails_lib.dfy`). `sendEmails` reports
  between zero and two failures and a sent count that is not clamped.
- **Shared pieces**:
  - `smtp.dfy`: the SMTP configuration record, the credential guard, the
    Gmail alternative configuration and the password-masked log copy;
  - `text.dfy`: the JavaScript text conversions used, namely `String(n)`,
    `parseInt(s, 10)`, `\s` and ASCII `toLowerCase`;
  - `wrappers.dfy`: `Option` and `Result`.

Nondeterminism and I/O become parameters:

- `Math.random()` for the i-th recipient is `draw(i)`, and in the library it is
  `random`.
- The outcome of `createTransport`, of both `verify` calls and of the i-th
  `sendMail` is a `TransportScript`.
- A request body that cannot be parsed is `Malformed(reason)`.
- The spreadsheet library's output is a `Result` of rows.

## Model

| member | source | states |
|---|---|---|
| Text.NatToDecimal | app/api/send-emails/route.ts:174 | the text written for a count is its canonical decimal form: digits whose value is that count, with no leading zero ("0" for zero) |
| Text.ToLowerAscii | components/email-sending-form.tsx:74 | lower-casing keeps the length, maps each upper-case ASCII letter to its lower-case letter and keeps every other character |
| Text.TrimStart | components/email-sending-form.tsx:197 | what `parseInt` skips is a prefix made only of white space, and what remains is empty or starts with a non-space |
| Text.DigitPrefix | components/email-sending-form.tsx:197 | the digits `parseInt` reads form the longest all-digit prefix: the character after them, if any, is not a digit |
| Text.ParseIntOfDecimal | components/email-sending-form.tsx:197 | `parseInt` reads back any whole number written in decimal, negative ones included, whatever non-digit text follows it |
| Template.Keys | components/email-sending-form.tsx:86 | the column names are those of the row's cells, one per cell, in order |
| Template.Lookup | app/api/send-emails/route.ts:103 | `row[key]` is absent exactly when no cell has that name, and otherwise is the value of a cell of that name |
| Template.Substitute | components/email-sending-form.tsx:115 | a placeholder's replacement is empty exactly when the cell is falsy (empty text, zero, false), and otherwise is the cell's text |
| Template.Personalize | components/email-sending-form.tsx:113-117 | reassigning the message once per key, in key order, yields the rendered fold `Render` |
| Template.ReplaceCharIsMap | app/api/send-emails/route.ts:112 | a global replacement of a one-character pattern rewrites the text character by character |
| Template.HtmlBodyHasNoLineFeed | app/api/send-emails/route.ts:112 | the HTML body has no line feed left, and a text with no line feed is its own HTML body |
| Template.ReplaceAllFills | components/email-sending-form.tsx:115 | one global replacement fills every placeholder of that column, not only the first, and changes nothing else |
| Template.RenderFills | components/email-sending-form.tsx:111-120 | rendering fills every placeholder of every column the row has with the substituted value, keeps literal text, and keeps placeholders of absent columns verbatim |
| Template.GreetingExample | components/email-sending-form.tsx:114-116 | "Hi ${name}, code ${id}" with name Ana and id 42 renders as "Hi Ana, code 42" |
| Template.MissingColumnIsKept | components/email-sending-form.tsx:114-116 | a placeholder whose column the row lacks stays in the output verbatim |
| Template.FalsyCellIsDropped | components/email-sending-form.tsx:115 | a cell holding the number zero is replaced by the empty string |
| Template.LaterKeyRewritesValue | app/api/send-emails/route.ts:102-104 | a substituted value holding another column's placeholder is rewritten when that column comes later in key order |
| Template.EarlierKeyKeepsValue | app/api/send-emails/route.ts:102-104 | the same value is left alone when that column came earlier in key order |
| Smtp.MaskedForLog | app/api/test-smtp/route.ts:13-16 | the logged configuration has the password replaced by "********", keeps the user, and is otherwise the configuration unchanged |
| Smtp.LogHidesPassword | app/api/test-smtp/route.ts:13-16 | two configurations that differ only in the password are logged identically |
| Smtp.GmailAltConfig | app/api/send-emails/route.ts:78-82 | the alternative Gmail configuration has `secure` true and port 465, and all other fields as in the original |
| SendEmailsRoute.Failing | app/api/send-emails/route.ts:23-32 | the failing positions of a batch are listed in increasing order, each one failing, and none is missing |
| SendEmailsRoute.MockSendTo | app/api/send-emails/route.ts:24-31 | one turn of the simulated loop counts the recipient as a success, or as a failure with an error, and logs one line |
| SendEmailsRoute.MockSendEmails | app/api/send-emails/route.ts:8-35 | the simulated loop yields the simulated tally: success plus failed is the number of recipients, and there is one error per failure |
| SendEmailsRoute.MockTallyCounts | app/api/send-emails/route.ts:23-32 | `failed` is the number of draws not above the failure rate, `success + failed` is the number of recipients, and there is one error per failure |
| SendEmailsRoute.MockErrorsNameFailures | app/api/send-emails/route.ts:28-29 | the i-th simulated error is "Mock failure for " followed by the address of the i-th failing recipient |
| SendEmailsRoute.MockLogFollowsRecipients | app/api/send-emails/route.ts:20-31 | the simulated log is the preview banner followed by exactly one line per recipient, in recipient order |
| SendEmailsRoute.MiddleRecipientFails | app/api/send-emails/route.ts:23-32 | with three recipients and only the second draw under the rate, two succeed and the one error names the second recipient |
| SendEmailsRoute.SendTallyCounts | app/api/send-emails/route.ts:98-131 | after the real loop, `failed` is the number of rejected sends, `success + failed` is the number of recipients, and there is one error per failure |
| SendEmailsRoute.SendLogFollowsRecipients | app/api/send-emails/route.ts:115-129 | the real log keeps the preflight lines, then holds exactly two lines per recipient in order: the attempt, then the message id or the error details of that recipient's own outcome |
| SendEmailsRoute.SendErrorsNameFailures | app/api/send-emails/route.ts:123-128 | the i-th real error names the i-th rejected recipient and carries the transport's message |
| SendEmailsRoute.SendTo | app/api/send-emails/route.ts:99-130 | one turn personalises the message, hands it to the given transporter with the HTML body and the raw `email` cell as recipient, and tallies the outcome without ending the batch |
| SendEmailsRoute.SendEach | app/api/send-emails/route.ts:98-131 | every recipient is attempted in order, whatever happened before: the results are the real tally and there is one delivery per recipient through the given transporter |
| SendEmailsRoute.VerifyConnection | app/api/send-emails/route.ts:59-95 | the preflight logs the verification outcome; only for Gmail after a failed check is the alternative configuration also verified; nothing aborts |
| SendEmailsRoute.SendRealEmails | app/api/send-emails/route.ts:38-140 | a throwing `createTransport` gives "SMTP connection failed: ..." and sends nothing; otherwise every recipient is tallied and every mail goes through the original configuration, even after a failed or successful Gmail retry |
| SendEmailsRoute.Post | app/api/send-emails/route.ts:142-189 | 500 on an unreadable body; 400 for missing recipients, then an empty template, then missing credentials, in that order; 200 exactly when all guards pass; the details are then the simulated tally of the request's rows under the draws, followed in the log by the two preview notes, with counts adding up and the summary message built from them |
| TestSmtpRoute.ServiceName | app/api/test-smtp/route.ts:25 | the service shown is never empty: the configured service, or "custom" when it is absent or empty |
| TestSmtpRoute.Post | app/api/test-smtp/route.ts:3-41 | 500 on an unreadable body; 400 "Invalid SMTP configuration" without credentials; 200 exactly with them, with success and preview flags set and host, port, secure and user copied |
| TestSmtpRoute.ReplyIgnoresPassword | app/api/test-smtp/route.ts:24-30 | the reply does not depend on the password: any two non-empty passwords give the same reply |
| SendEmailsLib.FailedCount | lib/send-emails.ts:31 | the failure count is the floor of three times the draw, so it is at most 2 |
| SendEmailsLib.SendEmails | lib/send-emails.ts:21-40 | success is always reported, `sent + failed` is the number of mails, `sent` is negative exactly when there are fewer mails than failures, and the one error notice is present exactly when something failed |
| SendEmailsLib.FailedCountBands | lib/send-emails.ts:31 | each failure count 0, 1 or 2 is reported exactly for the draws in its third of [0, 1) |
| SendEmailsLib.EmptyBatchReportsNegativeSent | lib/send-emails.ts:32 | an empty batch can report a sent count of -1 |
| Form.EmailColumnIsCaseVariant | components/email-sending-form.tsx:74 | a column is accepted as the email column exactly when it spells "email" with any letters in upper case |
| Form.PreviewRows | components/email-sending-form.tsx:93 | the preview holds the first rows of the sheet: all of them when there are at most two, otherwise exactly two |
| Form.LooksLikeEmailIsRegexTest | components/email-sending-form.tsx:142 | the positional sender check holds exactly when some substring of the sender matches `\S+@\S+\.\S+` |
| Form.FormErrorsRecord | components/email-sending-form.tsx:129-166 | each input has an error entry exactly when its check fails, and the entry is that check's message, e.g. "Sender email is required." versus "Invalid email address." |
| Form.FormErrorsEmptyIffValid | components/email-sending-form.tsx:129-170 | no error is recorded exactly when the form is valid: rows previewed, template of 10 or more characters, well-formed sender, password, service, host and port for "custom", and subject |
| Form.ConfigFor | components/email-sending-form.tsx:172-205 | the credentials are always the sender and password; Gmail gets port 587 and `secure` false; outlook and yahoo get only the service; custom gets host, parsed port and `secure` exactly for "ssl"; anything else gets credentials only |
| Form.ConfigCarriesCredentials | components/email-sending-form.tsx:174-179 | the configuration passes both routes' credential guard exactly when sender and password are filled in |
| Form.CustomPortIsRead | components/email-sending-form.tsx:197 | a custom port typed as a whole number is the number in the configuration |
| Form.ValidFormIsAccepted | components/email-sending-form.tsx:228-239 | the body posted for a valid form passes all three guards of the send route and gets status 200 |
| Form.EmailSendingForm.constructor | components/email-sending-form.tsx:22-43 | the form starts with the initial inputs (security "tls", the default subject), no rows, no previews and no errors |
| Form.EmailSendingForm.GeneratePreviewMessages | components/email-sending-form.tsx:111-120 | there is exactly one preview message per row, in row order, each the row's rendered template |
| Form.EmailSendingForm.HandleExcelUpload | components/email-sending-form.tsx:55-106 | a parse error, an empty sheet or a first row without an email column each show their toast and change nothing; otherwise columns come from the first row, all rows are kept, the first two are previewed, and the previews follow the template when one exists |
| Form.EmailSendingForm.HandleMessageTemplateChange | components/email-sending-form.tsx:122-127 | the template is replaced, and the previews are regenerated from it exactly when rows were uploaded |
| Form.EmailSendingForm.ValidateForm | components/email-sending-form.tsx:129-170 | the recorded errors are the form's error dictionary, and the result is true exactly when it is empty, that is, when the form is valid |
| Form.EmailSendingForm.GetSmtpConfig | components/email-sending-form.tsx:172-205 | the configuration built by the `switch` is the service's configuration `ConfigFor` |
| Form.EmailSendingForm.HandleSubmit | components/email-sending-form.tsx:207-239 | the recorded errors are the form's error dictionary; a request is posted exactly when the form is valid; it carries all rows, the template, the configuration and the subject, and it passes the route's guards |
| Form.EmailSendingForm.TestSmtpConnection | components/email-sending-form.tsx:280-306 | a test request is posted exactly when sender, password and service are filled in, and the test route answers it with 200 |

## Behaviour worth knowing

Each point is a fact about the code, and the model reproduces it.

- A placeholder whose column the row lacks stays in the message verbatim (`MissingColumnIsKept`). The fold only visits the row's own keys.
- The column name is put into a regular expression unescaped (`app/api/send-emails/route.ts:103`, `components/email-sending-form.tsx:115`). The model performs literal token replacement instead; see "Left out".
- A failed verification never aborts the real batch, not even after a failed Gmail retry. Only a throwing `createTransport` does.
- The transporter verified with the Gmail alternative configuration is bound to a new inner name (`app/api/send-emails/route.ts:88`) that nothing reads. Every mail goes through the transporter built from the original configuration. `SendRealEmails` states this in its `deliveries`.
- The subject the form sends is ignored by both batches. `mockSendEmails` does not use it, and the real batch always uses "Your Personalized Message".
- The request handler always runs the simulated batch; `sendRealEmails` is never called from it.
- The upload check accepts any letter case of "email", but both batches read the field `email` exactly. For a row whose column is "Email", the log and error lines write "undefined" (`SendEmailsRoute.Address`), and the real batch hands `sendMail` no recipient at all (`MailOptions.to` is `None`).
- In `lib/send-emails.ts` the SMTP configuration argument is unused, and `sent` can be negative.

## Left out

- I/O and framework glue are not modelled:
  - `FileReader`, and the early return when no file is chosen;
  - JSX, toasts and the `isLoading`, `sendingResults`, `debugInfo`, `showDebug` and `smtpTestResult` state;
  - the `fetch` calls and the handling of their responses after a request is built;
  - `console` logging, other than the masked copy, which is modelled as a value;
  - the `setTimeout` delays;
  - `app/page.tsx`, which only mounts the form.
- The input setters become direct assignment to the `fields` record.
- XLSX parsing is a foreign library. `HandleExcelUpload` takes its output, the rows or the error it threw.
- The mail transport (`createTransport`, `verify`, `sendMail`) is network I/O. It is a scripted `TransportScript`. `JSON.stringify` of a thrown error is the `details` string of a `Rejected` outcome, and stack traces are left out.
- Two things `sendRealEmails` does are not modelled:
  - the two log lines it writes just before rethrowing (`app/api/send-emails/route.ts:134-135`), because the caller never sees the `results` object then;
  - exceptions from anything other than `createTransport` and `sendMail`.
- `String.prototype.replace` with a regular expression is modelled as literal token replacement. Column names containing regular-expression metacharacters, and `$&`, `$1` or `$$` inside a cell value, behave differently in the source.
- Cell values are text, whole numbers or booleans. A whole number is written out digit by digit, which matches JavaScript's `String(n)` only for safe integers (magnitude at most 2^53). Above 2^53, JavaScript writes the shortest digits that read back as the same double, then pads with zeros: `String(2**60)` is "1152921504606847000". From 10^21 it uses exponent notation ("1e+21"). So `Substitute`, `Address` and every log or error line that includes a larger number cell differ from the source. Fractional numbers and dates from the spreadsheet are not modelled, and neither are rows with duplicate keys, which JavaScript objects cannot have.
- Lengths are counted in Unicode scalar values, not UTF-16 code units. This matters for the 10-character template check with characters outside the Basic Multilingual Plane.
- `toLowerCase` is modelled on ASCII letters only. No other character lower-cases to a letter of "email", so the email-column check is unaffected.
- `parseInt` is modelled on decimal whole numbers. It yields a whole number or NaN. `Infinity` and values beyond the safe-integer range are not modelled.
- Recipient entries are taken to be objects (rows). The handler's guards only check that `recipients` is a non-empty array. A `null` entry passes them, and then `${recipient.email}` throws inside `mockSendEmails`, so the source answers 500 "Failed to process request: …". The model has no `null` entry, so `SendEmailsRoute.Post` says nothing about that input.
- `Math.random()` is a parameter. `MockSendEmails` and `Post` accept any `draw` function, and `SendEmails` any `random` in [0, 1).
- Template.ReplaceAllFills: stated only for plain templates and column names. Literal text holds no `$`, and the column name and the template's placeholder names hold no `$` or `}`. The restriction keeps the pattern from matching anywhere but a whole placeholder. Without it, literal text can spell `${name}` by itself or together with the literal text that follows. A name containing `}` can also close a placeholder early. The hypothesis is stronger than needed, because a lone `$` before a placeholder, as in "$${a}", is harmless. Ordinary templates with a `$` in the text, such as "Pay $5, ${name}", are therefore not covered.
- Template.RenderFills: stated only for plain templates and rows. In those, literal text and substituted values hold no `$`, and column names hold no `$` or `}`. Outside that class, a value or a splice of literal text can create new placeholders, so there is no general statement. The worked examples (`LaterKeyRewritesValue`, `EarlierKeyKeepsValue`) pin down the fold order instead.
