/**
 * The Builder example: fluent builders whose private fields start empty and
 * are overwritten by setters that return the builder itself, and a `build`
 * that logs the recipient and returns a field-less product of its variant.
 */
module Builder {
  import opened Wrappers
  import Text

  /** The two product variants. */
  datatype Channel = EmailChannel | SmsChannel

  /** The message of the error the SMS builder's subject setter throws. */
  const NotImplemented := "Method not implemented."

  const EmailSendPrefix := "Sending Email Notification: "
  const SmsSendPrefix := "Sending SMS Notification: "
  const EmailBuildPrefix := "Building Email Notification to "
  const SmsBuildPrefix := "Building SMS Notification to "

  function SendPrefix(c: Channel): string
  {
    if c == EmailChannel then EmailSendPrefix else SmsSendPrefix
  }

  function BuildPrefix(c: Channel): string
  {
    if c == EmailChannel then EmailBuildPrefix else SmsBuildPrefix
  }

  /** The console line a product of variant `c` writes for `send(message)`. */
  function SendLine(c: Channel, message: string): string
  {
    SendPrefix(c) + message
  }

  /** The console line `build()` of the builder for `c` writes. */
  function BuildLine(c: Channel, recipient: string): string
  {
    BuildPrefix(c) + recipient
  }

  /** Reads a console line back as the variant that wrote it and the text after the fixed words. */
  function ParseLine(emailPrefix: string, smsPrefix: string, line: string): Option<(Channel, string)>
  {
    match Text.StripPrefix(emailPrefix, line)
    case Some(rest) => Some((EmailChannel, rest))
    case None =>
      match Text.StripPrefix(smsPrefix, line)
      case Some(rest) => Some((SmsChannel, rest))
      case None => None
  }

  /** A product's send line gives back its variant and exactly the message it was given. */
  lemma SendLineRoundTrip(c: Channel, message: string)
    ensures ParseLine(EmailSendPrefix, SmsSendPrefix, SendLine(c, message)) == Some((c, message))
  {
    Text.StripPrefixOfConcat(SendPrefix(c), message);
    if c == SmsChannel {
      Text.ClashingPrefixes(EmailSendPrefix, SmsSendPrefix, SendLine(c, message), 8);
    }
  }

  /** A build line gives back the builder's variant and exactly its recipient. */
  lemma BuildLineRoundTrip(c: Channel, recipient: string)
    ensures ParseLine(EmailBuildPrefix, SmsBuildPrefix, BuildLine(c, recipient)) == Some((c, recipient))
  {
    Text.StripPrefixOfConcat(BuildPrefix(c), recipient);
    if c == SmsChannel {
      Text.ClashingPrefixes(EmailBuildPrefix, SmsBuildPrefix, BuildLine(c, recipient), 9);
    }
  }

  /** The email product: no fields; `send` writes the message it is given. */
  class EmailNotification {
    constructor ()
    {
    }

    method Send(message: string) returns (line: string)
      ensures line == SendLine(EmailChannel, message)
    {
      line := "Sending Email Notification: " + message;
    }
  }

  /** The SMS product: no fields; `send` writes the message it is given. */
  class SMSNotification {
    constructor ()
    {
    }

    method Send(message: string) returns (line: string)
      ensures line == SendLine(SmsChannel, message)
    {
      line := "Sending SMS Notification: " + message;
    }
  }

  /** The builder fields a setter can name. */
  datatype Field = RecipientField | SubjectField | MessageField

  /** One setter call in a fluent chain. */
  datatype Setter = Set(field: Field, value: string)

  /** The private fields of an email builder. */
  datatype EmailDraft = EmailDraft(recipient: string, subject: string, message: string)

  /** The private fields of an SMS builder. */
  datatype SmsDraft = SmsDraft(recipient: string, message: string)

  /** The effect of one setter call on an email builder. */
  function EmailStep(d: EmailDraft, s: Setter): EmailDraft
  {
    match s.field
    case RecipientField => d.(recipient := s.value)
    case SubjectField => d.(subject := s.value)
    case MessageField => d.(message := s.value)
  }

  /** The effect of one setter call on an SMS builder: the subject setter throws. */
  function SmsStep(d: SmsDraft, s: Setter): Result<SmsDraft, string>
  {
    match s.field
    case RecipientField => Success(d.(recipient := s.value))
    case SubjectField => Failure(NotImplemented)
    case MessageField => Success(d.(message := s.value))
  }

  /** An email builder after the setter calls of `chain`, in order. */
  function EmailRun(d: EmailDraft, chain: seq<Setter>): EmailDraft
  {
    if chain == [] then d else EmailStep(EmailRun(d, chain[..|chain| - 1]), chain[|chain| - 1])
  }

  /**
   * Where a chain of setter calls leaves an SMS builder: its fields, and the error of the first
   * call that threw, if any. The calls before a throw stay applied, since the fields are updated
   * in place; the throw abandons the rest of the chain.
   */
  datatype SmsOutcome = SmsOutcome(draft: SmsDraft, thrown: Option<string>)

  /** An SMS builder after the setter calls of `chain`, in order, up to the first throw. */
  function SmsRun(d: SmsDraft, chain: seq<Setter>): SmsOutcome
  {
    if chain == [] then SmsOutcome(d, None)
    else
      var before := SmsRun(d, chain[..|chain| - 1]);
      if before.thrown.Some? then before
      else
        match SmsStep(before.draft, chain[|chain| - 1])
        case Success(d') => SmsOutcome(d', None)
        case Failure(e) => SmsOutcome(before.draft, Some(e))
  }

  /** Whether some call of `chain` is the subject setter. */
  predicate CallsSubject(chain: seq<Setter>)
  {
    exists i | 0 <= i < |chain| :: chain[i].field == SubjectField
  }

  /** The calls of `chain` that run before the first call of the subject setter. */
  function UntilSubject(chain: seq<Setter>): seq<Setter>
  {
    if chain == [] then []
    else if CallsSubject(chain[..|chain| - 1]) then UntilSubject(chain[..|chain| - 1])
    else if chain[|chain| - 1].field == SubjectField then chain[..|chain| - 1]
    else chain
  }

  /** `UntilSubject(chain)` is the longest prefix of `chain` free of subject calls. */
  lemma {:induction false} UntilSubjectIsLongestFreePrefix(chain: seq<Setter>)
    ensures UntilSubject(chain) <= chain
    ensures !CallsSubject(UntilSubject(chain))
    ensures |UntilSubject(chain)| < |chain| ==> chain[|UntilSubject(chain)|].field == SubjectField
  {
    if chain != [] {
      var init := chain[..|chain| - 1];
      UntilSubjectIsLongestFreePrefix(init);
      assert forall i | 0 <= i < |init| :: init[i] == chain[i];
    }
  }

  /** The value of the last setter in `chain` that names `f`, or `initial` when none does. */
  function LastValue(chain: seq<Setter>, f: Field, initial: string): string
  {
    if chain == [] then initial
    else if chain[|chain| - 1].field == f then chain[|chain| - 1].value
    else LastValue(chain[..|chain| - 1], f, initial)
  }

  /** After a chain of setter calls, each email builder field holds the last value given for it. */
  lemma {:induction false} EmailChainLastWins(d: EmailDraft, chain: seq<Setter>)
    ensures EmailRun(d, chain) == EmailDraft(
      LastValue(chain, RecipientField, d.recipient),
      LastValue(chain, SubjectField, d.subject),
      LastValue(chain, MessageField, d.message))
  {
    if chain != [] {
      EmailChainLastWins(d, chain[..|chain| - 1]);
    }
  }

  /** A chain on an SMS builder throws exactly when it calls the subject setter, and then with "Method not implemented.". */
  lemma {:induction false} SmsChainFailsIffSubject(d: SmsDraft, chain: seq<Setter>)
    ensures SmsRun(d, chain).thrown.Some? <==> CallsSubject(chain)
    ensures SmsRun(d, chain).thrown.Some? ==> SmsRun(d, chain).thrown.value == NotImplemented
  {
    if chain != [] {
      var init := chain[..|chain| - 1];
      SmsChainFailsIffSubject(d, init);
      assert forall i | 0 <= i < |init| :: init[i] == chain[i];
    }
  }

  /**
   * After any chain on an SMS builder, each field holds the last value given for it before the
   * first subject call, or its starting value if none was.
   */
  lemma {:induction false} SmsChainLastWins(d: SmsDraft, chain: seq<Setter>)
    ensures SmsRun(d, chain).draft == SmsDraft(
      LastValue(UntilSubject(chain), RecipientField, d.recipient),
      LastValue(UntilSubject(chain), MessageField, d.message))
  {
    if chain != [] {
      var init := chain[..|chain| - 1];
      SmsChainLastWins(d, init);
      SmsChainFailsIffSubject(d, init);
      if !CallsSubject(init) {
        UntilSubjectIsLongestFreePrefix(init);
        assert UntilSubject(init) == init;
      }
    }
  }

  class EmailNotificationBuilder {
    var recipient: string
    var subject: string
    var message: string

    function Draft(): EmailDraft
      reads this
    {
      EmailDraft(recipient, subject, message)
    }

    constructor ()
      ensures Draft() == EmailDraft("", "", "")
    {
      recipient, subject, message := "", "", "";
    }

    method SetRecipient(recipient: string) returns (self: EmailNotificationBuilder)
      modifies this
      ensures self == this
      ensures this.recipient == recipient && subject == old(subject) && message == old(message)
      ensures Draft() == EmailStep(old(Draft()), Set(RecipientField, recipient))
    {
      this.recipient := recipient;
      self := this;
    }

    method SetSubject(subject: string) returns (self: EmailNotificationBuilder)
      modifies this
      ensures self == this
      ensures this.subject == subject && recipient == old(recipient) && message == old(message)
      ensures Draft() == EmailStep(old(Draft()), Set(SubjectField, subject))
    {
      this.subject := subject;
      self := this;
    }

    method SetMessage(message: string) returns (self: EmailNotificationBuilder)
      modifies this
      ensures self == this
      ensures this.message == message && recipient == old(recipient) && subject == old(subject)
      ensures Draft() == EmailStep(old(Draft()), Set(MessageField, message))
    {
      this.message := message;
      self := this;
    }

    /** A new email product and the build line naming the recipient; subject and message play no part. */
    method Build() returns (product: EmailNotification, output: string)
      ensures fresh(product)
      ensures output == BuildLine(EmailChannel, recipient)
    {
      product := new EmailNotification();
      output := "Building Email Notification to " + recipient;
    }
  }

  class SMSNotificationBuilder {
    var recipient: string
    var message: string

    function Draft(): SmsDraft
      reads this
    {
      SmsDraft(recipient, message)
    }

    constructor ()
      ensures Draft() == SmsDraft("", "")
    {
      recipient, message := "", "";
    }

    method SetRecipient(recipient: string) returns (self: SMSNotificationBuilder)
      modifies this
      ensures self == this
      ensures this.recipient == recipient && message == old(message)
      ensures Success(Draft()) == SmsStep(old(Draft()), Set(RecipientField, recipient))
    {
      this.recipient := recipient;
      self := this;
    }

    /** Always throws "Method not implemented." and changes nothing. */
    method SetSubject(subject: string) returns (r: Result<SMSNotificationBuilder, string>)
      ensures r == Failure(NotImplemented)
      ensures SmsStep(Draft(), Set(SubjectField, subject)) == Failure(r.error)
    {
      r := Failure("Method not implemented.");
    }

    method SetMessage(message: string) returns (self: SMSNotificationBuilder)
      modifies this
      ensures self == this
      ensures this.message == message && recipient == old(recipient)
      ensures Success(Draft()) == SmsStep(old(Draft()), Set(MessageField, message))
    {
      this.message := message;
      self := this;
    }

    /** A new SMS product and the build line naming the recipient; the message plays no part. */
    method Build() returns (product: SMSNotification, output: string)
      ensures fresh(product)
      ensures output == BuildLine(SmsChannel, recipient)
    {
      product := new SMSNotification();
      output := "Building SMS Notification to " + recipient;
    }
  }

  /** The first builder test: a full email chain builds an email product. */
  method BuildEmailChain() returns (draft: EmailDraft, output: string)
    ensures draft == EmailDraft("John Doe", "Test Email", "Hello, this is a test email.")
    ensures output == BuildLine(EmailChannel, "John Doe")
  {
    var builder := new EmailNotificationBuilder();
    var b1 := builder.SetRecipient("John Doe");
    var b2 := b1.SetSubject("Test Email");
    var b3 := b2.SetMessage("Hello, this is a test email.");
    var product;
    product, output := b3.Build();
    draft := builder.Draft();
  }

  /** The third builder test: an SMS chain without a subject builds an SMS product. */
  method BuildSmsChain() returns (draft: SmsDraft, output: string)
    ensures draft == SmsDraft("Jane Doe", "Hello, this is a test SMS.")
    ensures output == BuildLine(SmsChannel, "Jane Doe")
  {
    var builder := new SMSNotificationBuilder();
    var b1 := builder.SetRecipient("Jane Doe");
    var b2 := b1.SetMessage("Hello, this is a test SMS.");
    var product;
    product, output := b2.Build();
    draft := builder.Draft();
  }

  /** Setters that ran before the subject setter threw stay applied, and a later build reports them. */
  method SubjectThrowKeepsEarlierSetters() returns (r: Result<SMSNotificationBuilder, string>, output: string)
    ensures r == Failure(NotImplemented)
    ensures output == BuildLine(SmsChannel, "a")
  {
    var builder := new SMSNotificationBuilder();
    var b1 := builder.SetRecipient("a");
    r := b1.SetSubject("x");
    var product;
    product, output := builder.Build();
  }

  /** The last builder test: the SMS builder's subject setter throws on a fresh builder. */
  method SmsSubjectThrows() returns (r: Result<SMSNotificationBuilder, string>, draft: SmsDraft)
    ensures r == Failure("Method not implemented.")
    ensures draft == SmsDraft("", "")
  {
    var builder := new SMSNotificationBuilder();
    r := builder.SetSubject("Test Subject");
    draft := builder.Draft();
  }
}
