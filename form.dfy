/**
 * The logic of the `EmailSendingForm` component: accepting an uploaded sheet,
 * previewing the first rows, validating the form, building the SMTP configuration,
 * and the request bodies it posts to the two API routes.
 *
 * The component's state variables become the fields of a class. The form inputs,
 * which plain setters update, are kept together in one `FormFields` record.
 */
module Form {
  import opened Wrappers
  import opened Text
  import opened Template
  import opened Smtp
  import SendEmailsRoute
  import TestSmtpRoute

  /** The eight form inputs. */
  datatype FormFields = FormFields(
    messageTemplate: string,
    senderEmail: string,
    senderPassword: string,
    smtpService: string,
    customSmtpHost: string,
    customSmtpPort: string,
    customSmtpSecurity: string,
    emailSubject: string)

  const InitialFields: FormFields := FormFields("", "", "", "", "", "", "tls", "Your Personalized Message")

  // Accepting a sheet.

  const ParseFailedToast: string := "Failed to parse the Excel file. Please make sure it's a valid .xlsx file."
  const EmptySheetToast: string := "The Excel file is empty or has no valid data."
  const NoEmailColumnToast: string := "The Excel file must contain an 'email' column."

  /** Some column of the row is named "email" in any mix of upper and lower case. */
  predicate HasEmailColumn(row: Row) {
    exists i :: 0 <= i < |row| && ToLowerAscii(row[i].key) == "email"
  }

  /** `key` spells `word`, a word of lower-case ASCII letters, with any letter
      possibly in upper case. */
  predicate CaseVariantOf(key: string, word: string) {
    |key| == |word| &&
    forall k :: 0 <= k < |key| ==> key[k] == word[k] || key[k] as int == word[k] as int - 32
  }

  /** The email-column test accepts exactly the case variants of "email". */
  lemma EmailColumnIsCaseVariant(key: string)
    ensures ToLowerAscii(key) == "email" <==> CaseVariantOf(key, "email")
  {
    var lower := ToLowerAscii(key);
    if CaseVariantOf(key, "email") {
      assert forall k :: 0 <= k < 5 ==> lower[k] == "email"[k];
    }
    if lower == "email" {
      forall k | 0 <= k < |key|
        ensures key[k] == "email"[k] || key[k] as int == "email"[k] as int - 32
      {
        assert lower[k] == "email"[k];
      }
    }
  }

  /** `jsonData.slice(0, 2)`: the rows shown in the preview table. */
  function PreviewRows(rows: seq<Row>): (preview: seq<Row>)
    ensures |preview| <= 2 && preview <= rows
    ensures |rows| <= 2 ==> preview == rows
    ensures |rows| > 2 ==> |preview| == 2
  {
    if |rows| <= 2 then rows else rows[..2]
  }

  // The sender check `/\S+@\S+\.\S+/.test(senderEmail)`.

  /** A non-empty run of non-space characters, the language of `\S+`. */
  predicate NonSpaceRun(t: string) {
    |t| > 0 && forall k :: 0 <= k < |t| ==> !IsSpace(t[k])
  }

  /** An '@' at `at` and a '.' at `dot`, with a non-space character just before the
      '@', a non-space run between the two, and a non-space character just after the '.'. */
  predicate EmailShapeAt(s: string, at: nat, dot: nat)
    requires 0 < at && at + 1 < dot && dot + 1 < |s|
  {
    s[at] == '@' && s[dot] == '.' && !IsSpace(s[at - 1]) && NonSpaceRun(s[at + 1..dot]) && !IsSpace(s[dot + 1])
  }

  /** The sender check, by positions. */
  predicate LooksLikeEmail(s: string) {
    exists at: nat, dot: nat :: 0 < at && at + 1 < dot && dot + 1 < |s| && EmailShapeAt(s, at, dot)
  }

  /** A whole string in the language of `\S+@\S+\.\S+`. */
  ghost predicate MatchesPattern(t: string) {
    exists a: string, b: string, c: string ::
      NonSpaceRun(a) && NonSpaceRun(b) && NonSpaceRun(c) && t == a + "@" + b + "." + c
  }

  /** `RegExp.prototype.test` without anchors: some substring matches. */
  ghost predicate RegexTest(s: string) {
    exists i, j :: 0 <= i <= j <= |s| && MatchesPattern(s[i..j])
  }

  lemma ShapeIsMatch(s: string)
    requires LooksLikeEmail(s)
    ensures RegexTest(s)
  {
    var at: nat, dot: nat :| 0 < at && at + 1 < dot && dot + 1 < |s| && EmailShapeAt(s, at, dot);
    var a, b, c := [s[at - 1]], s[at + 1..dot], [s[dot + 1]];
    assert s[at - 1..dot + 2] == a + "@" + b + "." + c;
    assert NonSpaceRun(a) && NonSpaceRun(b) && NonSpaceRun(c);
    assert MatchesPattern(s[at - 1..dot + 2]);
  }

  /** Where the pieces of `a@b.c` sit. */
  lemma PatternParts(a: string, b: string, c: string)
    requires |a| > 0 && |c| > 0
    ensures var u := a + "@" + b + "." + c;
      && |u| == |a| + |b| + |c| + 2
      && u[|a| - 1] == a[|a| - 1] && u[|a|] == '@'
      && u[|a| + 1..|a| + 1 + |b|] == b
      && u[|a| + 1 + |b|] == '.' && u[|a| + 2 + |b|] == c[0]
  {
    var u := a + "@" + b + "." + c;
    assert u == a + ("@" + b + "." + c);
    assert u[|a| + 1..|a| + 1 + |b|] == b;
  }

  /** A whole match of the pattern passes the positional check. */
  lemma MatchIsShapeWhole(t: string)
    requires MatchesPattern(t)
    ensures LooksLikeEmail(t)
  {
    var a, b, c :| NonSpaceRun(a) && NonSpaceRun(b) && NonSpaceRun(c) && t == a + "@" + b + "." + c;
    PatternParts(a, b, c);
    assert EmailShapeAt(t, |a|, |a| + 1 + |b|);
  }

  /** The positional check passes on a string when it passes on a slice of it. */
  lemma ShapeInSlice(s: string, i: nat, j: nat)
    requires i <= j <= |s| && LooksLikeEmail(s[i..j])
    ensures LooksLikeEmail(s)
  {
    var u := s[i..j];
    var at: nat, dot: nat :| 0 < at && at + 1 < dot && dot + 1 < |u| && EmailShapeAt(u, at, dot);
    var inS, inU := s[i + at + 1..i + dot], u[at + 1..dot];
    forall k | 0 <= k < |inU|
      ensures inS[k] == inU[k]
    {
      assert inS[k] == s[i + at + 1 + k] && inU[k] == u[at + 1 + k];
    }
    assert inS == inU;
    assert s[i + at - 1] == u[at - 1] && s[i + at] == u[at] && s[i + dot] == u[dot] && s[i + dot + 1] == u[dot + 1];
    assert EmailShapeAt(s, i + at, i + dot);
  }

  lemma MatchIsShape(s: string)
    requires RegexTest(s)
    ensures LooksLikeEmail(s)
  {
    var i, j :| 0 <= i <= j <= |s| && MatchesPattern(s[i..j]);
    MatchIsShapeWhole(s[i..j]);
    ShapeInSlice(s, i, j);
  }

  /** The positional check is the regular-expression test. */
  lemma LooksLikeEmailIsRegexTest(s: string)
    ensures LooksLikeEmail(s) <==> RegexTest(s)
  {
    if LooksLikeEmail(s) {
      ShapeIsMatch(s);
    }
    if RegexTest(s) {
      MatchIsShape(s);
    }
  }

  // Validation.

  /** The names under which `validateForm` records its errors: the form inputs, and
      the uploaded file. */
  datatype Input =
    | ExcelFile | MessageTemplate | SenderEmail | SenderPassword | SmtpService
    | CustomSmtpHost | CustomSmtpPort | EmailSubject

  const ExcelFileError: string := "Please upload a valid Excel file with recipient data."
  const TemplateError: string := "Message template must be at least 10 characters."
  const SenderMissingError: string := "Sender email is required."
  const SenderInvalidError: string := "Invalid email address."
  const PasswordError: string := "Password is required."
  const ServiceError: string := "Please select an SMTP service."
  const HostError: string := "SMTP host is required."
  const PortError: string := "SMTP port is required."
  const SubjectError: string := "Email subject is required."

  const CustomService: string := "custom"

  /** The error map holds an entry under `key` exactly when `failed`, and then it is `message`. */
  predicate Recorded(errors: map<Input, string>, key: Input, failed: bool, message: string) {
    (key in errors <==> failed) && (key in errors ==> errors[key] == message)
  }

  /** The form can be submitted: rows were previewed, and every input the chosen
      service needs is filled in and well formed. */
  predicate FormValid(f: FormFields, previewCount: nat) {
    && previewCount > 0
    && |f.messageTemplate| >= 10
    && LooksLikeEmail(f.senderEmail)
    && f.senderPassword != ""
    && f.smtpService != ""
    && (f.smtpService == CustomService ==> f.customSmtpHost != "" && f.customSmtpPort != "")
    && f.emailSubject != ""
  }

  /** The dictionary `validateForm` builds: each check, in the order written, adds an
      entry under the input it concerns when it fails. */
  function FormErrors(f: FormFields, previewCount: nat): map<Input, string> {
    var e0: map<Input, string> := map[];
    var e1 := if previewCount == 0 then e0[ExcelFile := ExcelFileError] else e0;
    var e2 := if |f.messageTemplate| < 10 then e1[MessageTemplate := TemplateError] else e1;
    var e3 := if f.senderEmail == "" then e2[SenderEmail := SenderMissingError]
              else if !LooksLikeEmail(f.senderEmail) then e2[SenderEmail := SenderInvalidError]
              else e2;
    var e4 := if f.senderPassword == "" then e3[SenderPassword := PasswordError] else e3;
    var e5 := if f.smtpService == "" then e4[SmtpService := ServiceError] else e4;
    var e6 := if f.smtpService == CustomService && f.customSmtpHost == "" then e5[CustomSmtpHost := HostError] else e5;
    var e7 := if f.smtpService == CustomService && f.customSmtpPort == "" then e6[CustomSmtpPort := PortError] else e6;
    if f.emailSubject == "" then e7[EmailSubject := SubjectError] else e7
  }

  /** Whether the check for `key` fails. */
  predicate Fails(f: FormFields, previewCount: nat, key: Input) {
    match key
    case ExcelFile => previewCount == 0
    case MessageTemplate => |f.messageTemplate| < 10
    case SenderEmail => !LooksLikeEmail(f.senderEmail)
    case SenderPassword => f.senderPassword == ""
    case SmtpService => f.smtpService == ""
    case CustomSmtpHost => f.smtpService == CustomService && f.customSmtpHost == ""
    case CustomSmtpPort => f.smtpService == CustomService && f.customSmtpPort == ""
    case EmailSubject => f.emailSubject == ""
  }

  /** The message shown under `key` when its check fails. */
  function ErrorMessage(f: FormFields, key: Input): string {
    match key
    case ExcelFile => ExcelFileError
    case MessageTemplate => TemplateError
    case SenderEmail => if f.senderEmail == "" then SenderMissingError else SenderInvalidError
    case SenderPassword => PasswordError
    case SmtpService => ServiceError
    case CustomSmtpHost => HostError
    case CustomSmtpPort => PortError
    case EmailSubject => SubjectError
  }

  /** Each input has an entry exactly when its check fails, holding that check's message. */
  lemma FormErrorsRecord(f: FormFields, previewCount: nat, key: Input)
    ensures Recorded(FormErrors(f, previewCount), key, Fails(f, previewCount, key), ErrorMessage(f, key))
  {
    match key
    case ExcelFile => RecordsExcelFile(f, previewCount);
    case MessageTemplate => RecordsMessageTemplate(f, previewCount);
    case SenderEmail => RecordsSenderEmail(f, previewCount);
    case SenderPassword => RecordsSenderPassword(f, previewCount);
    case SmtpService => RecordsSmtpService(f, previewCount);
    case CustomSmtpHost => RecordsCustomSmtpHost(f, previewCount);
    case CustomSmtpPort => RecordsCustomSmtpPort(f, previewCount);
    case EmailSubject => RecordsEmailSubject(f, previewCount);
  }

  lemma RecordsExcelFile(f: FormFields, previewCount: nat)
    ensures Recorded(FormErrors(f, previewCount), ExcelFile, Fails(f, previewCount, ExcelFile), ErrorMessage(f, ExcelFile))
  {
  }

  lemma RecordsMessageTemplate(f: FormFields, previewCount: nat)
    ensures Recorded(FormErrors(f, previewCount), MessageTemplate, Fails(f, previewCount, MessageTemplate), ErrorMessage(f, MessageTemplate))
  {
  }

  lemma RecordsSenderEmail(f: FormFields, previewCount: nat)
    ensures Recorded(FormErrors(f, previewCount), SenderEmail, Fails(f, previewCount, SenderEmail), ErrorMessage(f, SenderEmail))
  {
  }

  lemma RecordsSenderPassword(f: FormFields, previewCount: nat)
    ensures Recorded(FormErrors(f, previewCount), SenderPassword, Fails(f, previewCount, SenderPassword), ErrorMessage(f, SenderPassword))
  {
  }

  lemma RecordsSmtpService(f: FormFields, previewCount: nat)
    ensures Recorded(FormErrors(f, previewCount), SmtpService, Fails(f, previewCount, SmtpService), ErrorMessage(f, SmtpService))
  {
  }

  lemma RecordsCustomSmtpHost(f: FormFields, previewCount: nat)
    ensures Recorded(FormErrors(f, previewCount), CustomSmtpHost, Fails(f, previewCount, CustomSmtpHost), ErrorMessage(f, CustomSmtpHost))
  {
  }

  lemma RecordsCustomSmtpPort(f: FormFields, previewCount: nat)
    ensures Recorded(FormErrors(f, previewCount), CustomSmtpPort, Fails(f, previewCount, CustomSmtpPort), ErrorMessage(f, CustomSmtpPort))
  {
  }

  lemma RecordsEmailSubject(f: FormFields, previewCount: nat)
    ensures Recorded(FormErrors(f, previewCount), EmailSubject, Fails(f, previewCount, EmailSubject), ErrorMessage(f, EmailSubject))
  {
  }

  /** No entry is recorded exactly when the form is valid. */
  lemma FormErrorsEmptyIffValid(f: FormFields, previewCount: nat)
    ensures FormErrors(f, previewCount) == map[] <==> FormValid(f, previewCount)
  {
    var errors := FormErrors(f, previewCount);
    forall key: Input
      ensures key in errors <==> Fails(f, previewCount, key)
    {
      FormErrorsRecord(f, previewCount, key);
    }
    if errors == map[] {
      assert !Fails(f, previewCount, ExcelFile) && !Fails(f, previewCount, MessageTemplate);
      assert !Fails(f, previewCount, SenderEmail) && !Fails(f, previewCount, SenderPassword);
      assert !Fails(f, previewCount, SmtpService) && !Fails(f, previewCount, EmailSubject);
      assert !Fails(f, previewCount, CustomSmtpHost) && !Fails(f, previewCount, CustomSmtpPort);
    }
    if FormValid(f, previewCount) {
      assert errors.Keys == {};
    }
  }

  // The SMTP configuration.

  /** The object `getSmtpConfig` returns for the given inputs. */
  function ConfigFor(f: FormFields): (config: SmtpConfig)
    ensures config.auth == Some(Auth(f.senderEmail, f.senderPassword))
    ensures f.smtpService == GmailService ==>
      config.service == Some(GmailService) && config.host.None? &&
      config.port == Some(Int(587)) && config.secure == Some(false)
    ensures f.smtpService in {"outlook", "yahoo"} ==>
      config.service == Some(f.smtpService) && config.host.None? && config.port.None? && config.secure.None?
    ensures f.smtpService == CustomService ==>
      config.service.None? && config.host == Some(f.customSmtpHost) &&
      config.port == Some(ParseInt(f.customSmtpPort)) && config.secure == Some(f.customSmtpSecurity == "ssl")
    ensures f.smtpService !in {GmailService, "outlook", "yahoo", CustomService} ==>
      config.service.None? && config.host.None? && config.port.None? && config.secure.None?
  {
    var base := SmtpConfig(None, None, None, None, Some(Auth(f.senderEmail, f.senderPassword)));
    if f.smtpService == GmailService then
      base.(service := Some(GmailService), port := Some(Int(587)), secure := Some(false))
    else if f.smtpService == "outlook" || f.smtpService == "yahoo" then
      base.(service := Some(f.smtpService))
    else if f.smtpService == CustomService then
      base.(host := Some(f.customSmtpHost), port := Some(ParseInt(f.customSmtpPort)),
            secure := Some(f.customSmtpSecurity == "ssl"))
    else base
  }

  /** The configuration passes both routes' credential guard exactly when the sender
      and the password are filled in. */
  lemma ConfigCarriesCredentials(f: FormFields)
    ensures HasCredentials(Some(ConfigFor(f))) <==> f.senderEmail != "" && f.senderPassword != ""
  {
  }

  /** A custom port typed as a number is read back as that number. */
  lemma CustomPortIsRead(f: FormFields, port: int)
    requires f.smtpService == CustomService && f.customSmtpPort == IntToDecimal(port)
    ensures ConfigFor(f).port == Some(Int(port))
  {
    ParseIntOfDecimal(port, []);
    assert IntToDecimal(port) + [] == IntToDecimal(port);
  }

  // The request bodies.

  /** The body `handleSubmit` posts to the send route. */
  function SendRequestFor(f: FormFields, rows: seq<Row>): SendEmailsRoute.SendEmailsRequest {
    SendEmailsRoute.SendEmailsRequest(
      SendEmailsRoute.List(rows), f.messageTemplate, Some(ConfigFor(f)), Some(f.emailSubject))
  }

  /** A form that validates is never turned back by the send route's guards. */
  lemma ValidFormIsAccepted(f: FormFields, rows: seq<Row>, draw: nat -> real)
    requires FormValid(f, |PreviewRows(rows)|)
    ensures SendEmailsRoute.Accepts(SendRequestFor(f, rows))
    ensures SendEmailsRoute.Post(Decoded(SendRequestFor(f, rows)), draw).status == 200
  {
    assert f.messageTemplate != "" by {
      assert |f.messageTemplate| >= 10;
    }
  }

  /** The client-side guard of `testSmtpConnection`. */
  predicate CanTestConnection(f: FormFields) {
    f.senderEmail != "" && f.senderPassword != "" && f.smtpService != ""
  }

  /** The component's state. */
  class EmailSendingForm {
    var fields: FormFields
    var excelData: seq<Row>
    var allExcelData: seq<Row>
    var excelColumns: seq<string>
    var previewMessages: seq<string>
    var errors: map<Input, string>

    /** The preview rows are the first rows of the accepted sheet, and the columns
        are those of its first row. */
    predicate Valid()
      reads this
    {
      && excelData == PreviewRows(allExcelData)
      && excelColumns == (if allExcelData == [] then [] else Keys(allExcelData[0]))
    }

    constructor ()
      ensures Valid()
      ensures fields == InitialFields && allExcelData == [] && previewMessages == [] && errors == map[]
    {
      fields := InitialFields;
      excelData := [];
      allExcelData := [];
      excelColumns := [];
      previewMessages := [];
      errors := map[];
    }

    /** One preview message per row, in row order, each the row's personalised text. */
    method GeneratePreviewMessages(template: string, data: seq<Row>)
      modifies this`previewMessages
      ensures |previewMessages| == |data|
      ensures forall k :: 0 <= k < |data| ==> previewMessages[k] == Render(template, data[k])
    {
      var messages := [];
      for i := 0 to |data|
        invariant |messages| == i
        invariant forall k :: 0 <= k < i ==> messages[k] == Render(template, data[k])
      {
        var message := Personalize(template, data[i]);
        messages := messages + [message];
      }
      previewMessages := messages;
    }

    /** `handleExcelUpload` once the file is read: `sheet` is what the spreadsheet
        library produced, or the error it threw. A rejected sheet leaves the state as
        it was; the result is the error toast shown, if any. */
    method HandleExcelUpload(sheet: Result<seq<Row>>) returns (toast: Option<string>)
      requires Valid()
      modifies this
      ensures Valid()
      ensures sheet.Err? ==> toast == Some(ParseFailedToast)
      ensures sheet.Ok? && sheet.value == [] ==> toast == Some(EmptySheetToast)
      ensures sheet.Ok? && sheet.value != [] && !HasEmailColumn(sheet.value[0]) ==> toast == Some(NoEmailColumnToast)
      ensures toast.None? <==> sheet.Ok? && sheet.value != [] && HasEmailColumn(sheet.value[0])
      ensures toast.Some? ==>
        && fields == old(fields) && excelData == old(excelData) && allExcelData == old(allExcelData)
        && excelColumns == old(excelColumns) && previewMessages == old(previewMessages) && errors == old(errors)
      ensures toast.None? ==>
        && fields == old(fields) && errors == old(errors)
        && allExcelData == sheet.value && excelData == PreviewRows(sheet.value)
        && excelColumns == Keys(sheet.value[0])
      ensures toast.None? && fields.messageTemplate != "" ==>
        |previewMessages| == |excelData| &&
        forall k :: 0 <= k < |excelData| ==> previewMessages[k] == Render(fields.messageTemplate, excelData[k])
      ensures toast.None? && fields.messageTemplate == "" ==> previewMessages == old(previewMessages)
    {
      match sheet {
        case Err(_) =>
          toast := Some(ParseFailedToast);
        case Ok(rows) =>
          if rows == [] {
            toast := Some(EmptySheetToast);
          } else if !HasEmailColumn(rows[0]) {
            toast := Some(NoEmailColumnToast);
          } else {
            excelColumns := Keys(rows[0]);
            allExcelData := rows;
            excelData := PreviewRows(rows);
            if fields.messageTemplate != "" {
              GeneratePreviewMessages(fields.messageTemplate, PreviewRows(rows));
            }
            toast := None;
          }
      }
    }

    /** `handleMessageTemplateChange`: the previews follow the new template once rows
        were uploaded. */
    method HandleMessageTemplateChange(value: string)
      requires Valid()
      modifies this
      ensures Valid()
      ensures fields == old(fields).(messageTemplate := value)
      ensures excelData == old(excelData) && allExcelData == old(allExcelData)
      ensures excelColumns == old(excelColumns) && errors == old(errors)
      ensures excelData != [] ==>
        |previewMessages| == |excelData| &&
        forall k :: 0 <= k < |excelData| ==> previewMessages[k] == Render(value, excelData[k])
      ensures excelData == [] ==> previewMessages == old(previewMessages)
    {
      fields := fields.(messageTemplate := value);
      if |excelData| > 0 {
        GeneratePreviewMessages(value, excelData);
      }
    }

    /** `validateForm`: one entry per failed check, under the input's name; the form
        is valid when no entry was recorded. */
    method ValidateForm() returns (ok: bool)
      modifies this`errors
      ensures errors == FormErrors(fields, |excelData|)
      ensures ok <==> errors == map[]
      ensures ok <==> FormValid(fields, |excelData|)
    {
      var newErrors := FormErrors(fields, |excelData|);
      errors := newErrors;
      ok := |newErrors.Keys| == 0;
      FormErrorsEmptyIffValid(fields, |excelData|);
      if !ok {
        assert newErrors != map[];
      }
    }

    /** `getSmtpConfig`: the credentials, plus what the chosen service needs. */
    method GetSmtpConfig() returns (config: SmtpConfig)
      ensures config == ConfigFor(fields)
    {
      config := SmtpConfig(None, None, None, None, Some(Auth(fields.senderEmail, fields.senderPassword)));
      if fields.smtpService == GmailService {
        config := config.(service := Some(GmailService));
        config := config.(port := Some(Int(587)));
        config := config.(secure := Some(false));
      } else if fields.smtpService == "outlook" {
        config := config.(service := Some("outlook"));
      } else if fields.smtpService == "yahoo" {
        config := config.(service := Some("yahoo"));
      } else if fields.smtpService == CustomService {
        config := config.(host := Some(fields.customSmtpHost));
        config := config.(port := Some(ParseInt(fields.customSmtpPort)));
        config := config.(secure := Some(fields.customSmtpSecurity == "ssl"));
      }
    }

    /** `handleSubmit` up to the request: nothing is posted unless the form validates,
        and what is posted passes the send route's guards. */
    method HandleSubmit() returns (request: Option<SendEmailsRoute.SendEmailsRequest>)
      requires Valid()
      modifies this`errors
      ensures errors == FormErrors(fields, |excelData|)
      ensures request.Some? <==> FormValid(fields, |excelData|)
      ensures request.Some? ==> request.value == SendRequestFor(fields, allExcelData)
      ensures request.Some? ==> SendEmailsRoute.Accepts(request.value)
    {
      var ok := ValidateForm();
      if !ok {
        return None;
      }
      var config := GetSmtpConfig();
      request := Some(SendEmailsRoute.SendEmailsRequest(
        SendEmailsRoute.List(allExcelData), fields.messageTemplate, Some(config), Some(fields.emailSubject)));
      ValidFormIsAccepted(fields, allExcelData, _ => 0.0);
    }

    /** `testSmtpConnection` up to the request: nothing is posted unless the sender,
        the password and the service are filled in, and what is posted is accepted. */
    method TestSmtpConnection() returns (request: Option<TestSmtpRoute.TestSmtpRequest>)
      ensures request.Some? <==> CanTestConnection(fields)
      ensures request.Some? ==> request.value == TestSmtpRoute.TestSmtpRequest(Some(ConfigFor(fields)))
      ensures request.Some? ==> TestSmtpRoute.Post(Decoded(request.value)).status == 200
    {
      if fields.senderEmail == "" || fields.senderPassword == "" || fields.smtpService == "" {
        return None;
      }
      var config := GetSmtpConfig();
      request := Some(TestSmtpRoute.TestSmtpRequest(Some(config)));
    }
  }
}
