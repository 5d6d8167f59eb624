/**
 * Message preparation and the retry policy of `modules/email_sender.py`.
 *
 * Reading the template and attachment files, the MD5 digest and the SMTP
 * transport are parameters: a file is its contents or `None` when it cannot
 * be read, the digest is a function given by the caller, and the transport is
 * the sequence of outcomes of successive connection attempts.
 */
module EmailSending {
  import opened Common
  import opened Text

  /**
   * The keys of the mail configuration that the preparation reads itself; the
   * SMTP host, port and credentials are read only by the transport.
   */
  datatype MailConfig = MailConfig(
    senderName: Option<string>,
    senderEmail: Option<string>,
    subject: Option<string>)

  /** An attachment as read from disk: its file name and bytes. */
  datatype Attachment = Attachment(fileName: string, content: seq<Byte>)

  /** The MIME message: From (name and address), To, Subject, the HTML part and the attachments. */
  datatype Message = Message(
    fromName: string,
    fromAddress: string,
    to: string,
    subject: string,
    html: string,
    attachments: seq<Attachment>)

  /** An item of `email_queue`. */
  datatype QueuedEmail = QueuedEmail(msg: Message, recipient: string, campaignName: Option<string>)

  const MaxRetries := 3
  const DefaultSubjectText := "Important Notification"
  const BodyClose := "</body>"

  /** `config.get('subject', 'Important Notification')`. */
  function DefaultSubject(config: MailConfig): string {
    config.subject.GetOr(DefaultSubjectText)
  }

  /**
   * The list `_generate_subject` picks from: the default alone without a
   * campaign name, otherwise the three strings for a name that lower-cases to
   * `phishing` or `vishing`, and the default alone for any other name.
   */
  function SubjectChoices(config: MailConfig, campaignName: Option<string>): (r: seq<string>)
    ensures |r| == 1 || |r| == 3
    ensures |r| == 3 <==>
      Truthy(campaignName) && (Lower(campaignName.value) == "phishing" || Lower(campaignName.value) == "vishing")
    ensures |r| == 1 ==> r[0] == DefaultSubject(config)
    ensures |r| == 3 ==> forall s :: s in r ==> Contains(s, campaignName.value)
  {
    if !Truthy(campaignName) then [DefaultSubject(config)]
    else
      var n := campaignName.value;
      if Lower(n) == "phishing" then
        ContainsInfix("Important: Your ", n, " account requires attention");
        ContainsInfix("Action required: ", n, " security update");
        ContainsInfix("Urgent: Verify your ", n, " credentials");
        ["Important: Your " + n + " account requires attention",
         "Action required: " + n + " security update",
         "Urgent: Verify your " + n + " credentials"]
      else if Lower(n) == "vishing" then
        ContainsInfix("Your ", n, " subscription is expiring");
        ContainsInfix("Immediate action required for ", n, "");
        assert "Immediate action required for " + n + "" == "Immediate action required for " + n;
        ContainsInfix("", n, " account verification needed");
        assert "" + n + " account verification needed" == n + " account verification needed";
        ["Your " + n + " subscription is expiring",
         "Immediate action required for " + n,
         n + " account verification needed"]
      else [DefaultSubject(config)]
  }

  /** The tracking fragment for a campaign and the hex digest of the recipient. */
  function TrackingPixel(campaignName: string, digest: string): string {
    "<img src=\"http://tracker.example.com/" + campaignName + "/" + digest + ".png\" width=\"1\" height=\"1\">"
  }

  /** The HTML that is queued: variables substituted, then the fragment put before each `</body>`. */
  function RenderedHtml(template: string, variables: seq<(string, string)>, campaignName: Option<string>, digest: string): (html: string)
    ensures !Truthy(campaignName) ==> html == SubstituteAll(template, variables)
    ensures Truthy(campaignName) && Contains(SubstituteAll(template, variables), BodyClose) ==>
      Contains(html, TrackingPixel(campaignName.value, digest))
  {
    var body := SubstituteAll(template, variables);
    if Truthy(campaignName) then
      var pixel := TrackingPixel(campaignName.value, digest);
      var html := ReplaceAll(body, BodyClose, pixel + BodyClose);
      if Contains(body, BodyClose) then
        ReplaceInserts(body, BodyClose, pixel + BodyClose);
        assert (pixel + BodyClose)[..|pixel|] == pixel;
        ContainsPrefixOf(html, pixel + BodyClose, pixel);
        html
      else html
    else body
  }

  predicate AllReadable(attachments: seq<Option<Attachment>>) {
    forall i :: 0 <= i < |attachments| ==> attachments[i].Some?
  }

  function Readable(attachments: seq<Option<Attachment>>): (r: seq<Attachment>)
    requires AllReadable(attachments)
    ensures |r| == |attachments|
    ensures forall i :: 0 <= i < |r| ==> Some(r[i]) == attachments[i]
  {
    if attachments == [] then [] else [attachments[0].value] + Readable(attachments[1..])
  }

  /**
   * When the preparation succeeds: the configuration is loaded and holds the
   * sender's name and address, and the template and every attachment can be read.
   */
  predicate Prepares(config: Option<MailConfig>, template: Option<string>, attachments: seq<Option<Attachment>>) {
    config.Some? && template.Some? && config.value.senderName.Some? && config.value.senderEmail.Some? &&
    AllReadable(attachments)
  }

  /** `2 ** i`. */
  function Pow2(i: nat): (r: nat)
    ensures r >= 1
  {
    if i == 0 then 1 else 2 * Pow2(i - 1)
  }

  /** The sleeps after the first `n` failed attempts: 1, 2, 4, ... seconds. */
  function Backoff(n: nat): (r: seq<nat>)
    ensures |r| == n
  {
    if n == 0 then [] else Backoff(n - 1) + [Pow2(n - 1)]
  }

  /** Whether the connection attempt `i` (0-based) gets through. */
  predicate Succeeds(transport: seq<bool>, i: nat) {
    i < |transport| && transport[i]
  }

  /**
   * What `_send_email` does with a transport: at most three attempts, stopping
   * at the first success; a sleep of 2^i seconds after a failed attempt i
   * except the last one.
   */
  predicate RetryOutcome(transport: seq<bool>, attempts: nat, delivered: bool, sleeps: seq<nat>): (ok: bool)
    ensures ok ==> |sleeps| == attempts - 1
    ensures ok && !delivered ==> forall i :: 0 <= i < MaxRetries ==> !Succeeds(transport, i)
  {
    && 1 <= attempts <= MaxRetries
    && (forall i :: 0 <= i < attempts - 1 ==> !Succeeds(transport, i))
    && (delivered <==> Succeeds(transport, attempts - 1))
    && (!delivered ==> attempts == MaxRetries)
    && sleeps == Backoff(if delivered then attempts - 1 else MaxRetries - 1)
  }

  class EmailSender {
    /** `self.config`: `None` when the configuration file does not load. */
    const config: Option<MailConfig>
    /** `email_queue`. */
    var outbox: seq<QueuedEmail>

    constructor (config: Option<MailConfig>)
      ensures this.config == config && outbox == []
    {
      this.config := config;
      outbox := [];
    }

    /**
     * `send_phishing_email` with the `hashlib` import in place: render the
     * template and queue exactly one item, or return False and queue nothing.
     */
    method SendPhishingEmail(template: Option<string>, recipient: string, campaignName: Option<string>,
                             variables: seq<(string, string)>, attachments: seq<Option<Attachment>>,
                             md5Hex: string -> string) returns (ok: bool)
      modifies this`outbox
      ensures ok == Prepares(config, template, attachments)
      ensures !ok ==> outbox == old(outbox)
      ensures ok ==>
        |outbox| == |old(outbox)| + 1 && outbox[..|old(outbox)|] == old(outbox) &&
        var q := outbox[|old(outbox)|];
        q.recipient == recipient && q.campaignName == campaignName &&
        q.msg.to == recipient &&
        q.msg.fromName == config.value.senderName.value && q.msg.fromAddress == config.value.senderEmail.value &&
        q.msg.subject in SubjectChoices(config.value, campaignName) &&
        q.msg.html == RenderedHtml(template.value, variables, campaignName, md5Hex(recipient)) &&
        q.msg.attachments == Readable(attachments)
    {
      if config.None? || template.None? {
        return false;
      }
      var html := Substitute(template.value, variables);
      var cfg := config.value;
      if cfg.senderName.None? || cfg.senderEmail.None? {
        return false;
      }
      assert SubjectChoices(cfg, campaignName)[0] in SubjectChoices(cfg, campaignName);
      var subject :| subject in SubjectChoices(cfg, campaignName);
      if Truthy(campaignName) {
        html := ReplaceAll(html, BodyClose, TrackingPixel(campaignName.value, md5Hex(recipient)) + BodyClose);
      }
      var parts: seq<Attachment> := [];
      for i := 0 to |attachments|
        invariant outbox == old(outbox)
        invariant AllReadable(attachments[..i]) && parts == Readable(attachments[..i])
      {
        if attachments[i].None? {
          return false;
        }
        assert attachments[..i + 1] == attachments[..i] + [attachments[i]];
        ReadableAppend(attachments[..i], attachments[i].value);
        parts := parts + [attachments[i].value];
      }
      assert attachments[..|attachments|] == attachments;
      var msg := Message(cfg.senderName.value, cfg.senderEmail.value, recipient, subject, html, parts);
      outbox := outbox + [QueuedEmail(msg, recipient, campaignName)];
      ok := true;
    }

    /**
     * `send_phishing_email` as written: `hashlib` is used on the tracking line
     * but never imported, so with a truthy campaign name that line raises
     * `NameError`, which the method's own `except` turns into False. However
     * good the configuration, template and attachments, a tracked mail is
     * never queued. Importing `hashlib` alone does not make `run_campaign`'s
     * sends succeed: it passes the target's dictionary as the recipient, and
     * `encode` fails on that (`CampaignManagement.PhishingRunAsWritten`).
     */
    method SendPhishingEmailAsWritten(template: Option<string>, recipient: string, campaignName: Option<string>,
                                      variables: seq<(string, string)>, attachments: seq<Option<Attachment>>)
      returns (ok: bool)
      modifies this`outbox
      ensures ok == (Prepares(config, template, attachments) && !Truthy(campaignName))
      ensures !ok ==> outbox == old(outbox)
      ensures ok ==>
        |outbox| == |old(outbox)| + 1 && outbox[..|old(outbox)|] == old(outbox) &&
        var q := outbox[|old(outbox)|];
        q.recipient == recipient && q.campaignName == campaignName &&
        q.msg.to == recipient &&
        q.msg.fromName == config.value.senderName.value && q.msg.fromAddress == config.value.senderEmail.value &&
        q.msg.subject in SubjectChoices(config.value, campaignName) &&
        q.msg.html == SubstituteAll(template.value, variables) &&
        q.msg.attachments == Readable(attachments)
    {
      if config.None? || template.None? {
        return false;
      }
      var html := Substitute(template.value, variables);
      var cfg := config.value;
      if cfg.senderName.None? || cfg.senderEmail.None? {
        return false;
      }
      assert SubjectChoices(cfg, campaignName)[0] in SubjectChoices(cfg, campaignName);
      var subject :| subject in SubjectChoices(cfg, campaignName);
      if Truthy(campaignName) {
        // `hashlib.md5(...)` raises NameError here
        return false;
      }
      var parts: seq<Attachment> := [];
      for i := 0 to |attachments|
        invariant outbox == old(outbox)
        invariant AllReadable(attachments[..i]) && parts == Readable(attachments[..i])
      {
        if attachments[i].None? {
          return false;
        }
        assert attachments[..i + 1] == attachments[..i] + [attachments[i]];
        ReadableAppend(attachments[..i], attachments[i].value);
        parts := parts + [attachments[i].value];
      }
      assert attachments[..|attachments|] == attachments;
      var msg := Message(cfg.senderName.value, cfg.senderEmail.value, recipient, subject, html, parts);
      outbox := outbox + [QueuedEmail(msg, recipient, campaignName)];
      ok := true;
    }

    /**
     * `_send_email`: `transport[i]` says whether attempt i gets through
     * (missing entries fail). Returns the number of attempts, whether one
     * got through, and the sleeps taken in between.
     */
    method SendEmail(transport: seq<bool>) returns (attempts: nat, delivered: bool, sleeps: seq<nat>)
      ensures RetryOutcome(transport, attempts, delivered, sleeps)
    {
      attempts, delivered, sleeps := 0, false, [];
      for attempt := 0 to MaxRetries
        invariant attempts == attempt && !delivered
        invariant forall i :: 0 <= i < attempt ==> !Succeeds(transport, i)
        invariant sleeps == Backoff(if attempt < MaxRetries then attempt else MaxRetries - 1)
      {
        attempts := attempts + 1;
        if Succeeds(transport, attempt) {
          delivered := true;
          return;
        }
        if attempt < MaxRetries - 1 {
          sleeps := sleeps + [Pow2(attempt)];
        }
      }
    }

    /** `validate_email_config`: False without a configuration, else whether the SMTP login gets through. */
    function ValidateEmailConfig(loginSucceeds: bool): (r: bool)
      reads this
      ensures config.None? ==> !r
      ensures r ==> loginSucceeds
      ensures config.Some? && loginSucceeds ==> r
    {
      config.Some? && loginSucceeds
    }
  }

  lemma {:induction false} ReadableAppend(attachments: seq<Option<Attachment>>, a: Attachment)
    requires AllReadable(attachments)
    ensures AllReadable(attachments + [Some(a)])
    ensures Readable(attachments + [Some(a)]) == Readable(attachments) + [a]
    decreases |attachments|
  {
    if attachments != [] {
      assert (attachments + [Some(a)])[1..] == attachments[1..] + [Some(a)];
      ReadableAppend(attachments[1..], a);
    }
  }

  // ---------------------------------------------------------------------------
  // Lemmas

  /**
   * With a campaign name the tracking fragment lands immediately before every
   * `</body>`: the text between them is kept and each `</body>` becomes
   * fragment + `</body>`. A text without `</body>` is unchanged.
   */
  lemma PixelBeforeEveryBodyClose(template: string, variables: seq<(string, string)>, campaignName: Option<string>, digest: string)
    requires Truthy(campaignName)
    ensures var body := SubstituteAll(template, variables);
      RenderedHtml(template, variables, campaignName, digest) ==
        Join(Split(body, BodyClose), TrackingPixel(campaignName.value, digest) + BodyClose) &&
      (!Contains(body, BodyClose) ==> RenderedHtml(template, variables, campaignName, digest) == body)
  {
    var body := SubstituteAll(template, variables);
    var fragment := TrackingPixel(campaignName.value, digest) + BodyClose;
    ReplaceIsJoinOfSplit(body, BodyClose, fragment);
    if !Contains(body, BodyClose) {
      NoOccurrenceUnchanged(body, BodyClose, fragment);
    }
  }

  /** A template without placeholders and without `</body>` is queued exactly as read. */
  lemma PlainTemplateUnchanged(template: string, variables: seq<(string, string)>, campaignName: Option<string>, digest: string)
    requires !Contains(template, "{{") && !Contains(template, BodyClose)
    ensures RenderedHtml(template, variables, campaignName, digest) == template
  {
    NoPlaceholderUnchanged(template, variables);
    if Truthy(campaignName) {
      NoOccurrenceUnchanged(template, BodyClose, TrackingPixel(campaignName.value, digest) + BodyClose);
    }
  }

  /**
   * The input that shows the missing import: with a loaded configuration, a
   * readable template and the campaign name `demo`, everything the repaired
   * send needs is there, so `SendPhishingEmail` queues the mail, while the
   * name is truthy, so `SendPhishingEmailAsWritten` returns False.
   */
  lemma TrackedDemoMail()
    ensures var config := Some(MailConfig(Some("IT"), Some("it@example.com"), None));
      Prepares(config, Some("<html><body>Hi</body></html>"), []) && Truthy(Some("demo"))
  {
  }

  /** A transport that fails twice and then succeeds is tried exactly three times, with sleeps of 1 and 2 seconds. */
  lemma FailTwiceThenSucceed(attempts: nat, delivered: bool, sleeps: seq<nat>)
    requires RetryOutcome([false, false, true], attempts, delivered, sleeps)
    ensures attempts == 3 && delivered && sleeps == [1, 2]
  {
  }

  /** A transport that always fails is tried exactly three times, with 1 + 2 seconds of backoff and none after the last. */
  lemma AlwaysFailing(transport: seq<bool>, attempts: nat, delivered: bool, sleeps: seq<nat>)
    requires forall i :: 0 <= i < |transport| ==> !transport[i]
    requires RetryOutcome(transport, attempts, delivered, sleeps)
    ensures attempts == 3 && !delivered && sleeps == [1, 2]
  {
  }
}
