/**
 * `sendEmails` of lib/send-emails.ts: a stand-in that sends nothing and reports
 * between zero and two failures drawn at random. `Math.random()` becomes the
 * parameter `random`.
 */
module SendEmailsLib {
  import opened Wrappers

  datatype EmailData = EmailData(to: string, subject: string, body: string)

  /** The resolved value: `sent` is a plain difference and may be negative. */
  datatype SendSummary = SendSummary(success: bool, sent: int, failed: nat, errors: Option<seq<string>>)

  const FailureNotice: string := "Some emails failed to send"

  /** `Math.floor(Math.random() * 3)` for a draw in [0, 1). */
  function FailedCount(random: real): (failed: nat)
    requires 0.0 <= random < 1.0
    ensures failed <= 2
    ensures failed as real <= random * 3.0 < failed as real + 1.0
  {
    (random * 3.0).Floor
  }

  /** `sendEmails(emails, smtpConfig)` once the delay has passed. */
  function SendEmails(emails: seq<EmailData>, random: real): (summary: SendSummary)
    requires 0.0 <= random < 1.0
    ensures summary.success
    ensures summary.failed <= 2
    ensures summary.sent + summary.failed == |emails|
    ensures summary.sent < 0 <==> |emails| < summary.failed
    ensures summary.failed > 0 ==> summary.errors == Some([FailureNotice])
    ensures summary.failed == 0 ==> summary.errors.None?
  {
    var failed := FailedCount(random);
    var sent := |emails| - failed;
    SendSummary(true, sent, failed, if failed > 0 then Some([FailureNotice]) else None)
  }

  /** The draw splits [0, 1) into three equal bands, one per failure count. */
  lemma FailedCountBands(emails: seq<EmailData>, random: real, k: nat)
    requires 0.0 <= random < 1.0
    ensures SendEmails(emails, random).failed == k <==> k as real / 3.0 <= random < (k as real + 1.0) / 3.0
  {
    var failed := FailedCount(random);
    if k as real / 3.0 <= random < (k as real + 1.0) / 3.0 {
      assert k as real <= random * 3.0 < k as real + 1.0;
    }
  }

  /** An empty batch with a draw in the upper two thirds reports a negative count. */
  lemma EmptyBatchReportsNegativeSent()
    ensures SendEmails([], 0.5).sent == -1
    ensures SendEmails([], 0.5).errors == Some([FailureNotice])
  {
    FailedCountBands([], 0.5, 1);
  }
}
