/**
 * The Prototype example: two notification classes whose public fields can be
 * reassigned, each able to copy itself and to write a console line, and a
 * manager that keeps one registered template per kind and manufactures new
 * notifications by cloning it.
 */
module Prototype {
  import opened Wrappers
  import Text

  /** The public fields of one notification at one moment: what a clone copies. */
  datatype Fields =
    | EmailFields(recipient: string, subject: string, body: string)
    | SmsFields(phoneNumber: string, message: string)

  /** The two variants of the notification interface. */
  datatype Channel = EmailChannel | SmsChannel

  function ChannelOf(f: Fields): Channel
  {
    if f.EmailFields? then EmailChannel else SmsChannel
  }

  const EmailSendPrefix := "Sending email to "
  const SmsSendPrefix := "Sending SMS to "

  /** The console line `send()` writes for a notification whose fields are `f`. */
  function SendLine(f: Fields): string
  {
    match f
    case EmailFields(r, s, b) => EmailSendPrefix + r + " with subject " + s + " and body " + b
    case SmsFields(p, m) => SmsSendPrefix + p + ": " + m
  }

  /** The variant that wrote a console line, read off the line's opening words. */
  function ChannelOfLine(line: string): Option<Channel>
  {
    if EmailSendPrefix <= line then Some(EmailChannel)
    else if SmsSendPrefix <= line then Some(SmsChannel)
    else None
  }

  /** Every line `send()` writes names the variant that wrote it. */
  lemma SendLineNamesChannel(f: Fields)
    ensures ChannelOfLine(SendLine(f)) == Some(ChannelOf(f))
  {
    match f
    case EmailFields(r, s, b) =>
      assert SendLine(f) == EmailSendPrefix + (r + " with subject " + s + " and body " + b);
    case SmsFields(p, m) =>
      assert SendLine(f) == SmsSendPrefix + (p + ": " + m);
      Text.ClashingPrefixes(EmailSendPrefix, SmsSendPrefix, SendLine(f), 8);
  }

  class EmailNotification {
    var recipient: string
    var subject: string
    var body: string

    constructor (recipient: string, subject: string, body: string)
      ensures Snapshot() == EmailFields(recipient, subject, body)
    {
      this.recipient := recipient;
      this.subject := subject;
      this.body := body;
    }

    function Snapshot(): Fields
      reads this
    {
      EmailFields(recipient, subject, body)
    }

    /** A new object carrying the same three field values. */
    method Clone() returns (c: EmailNotification)
      ensures fresh(c) && c.Snapshot() == Snapshot()
    {
      c := new EmailNotification(recipient, subject, body);
    }

    method Send() returns (line: string)
      ensures line == SendLine(Snapshot())
      ensures ChannelOfLine(line) == Some(EmailChannel)
    {
      line := "Sending email to " + recipient + " with subject " + subject + " and body " + body;
      SendLineNamesChannel(Snapshot());
    }
  }

  class SMSNotification {
    var phoneNumber: string
    var message: string

    constructor (phoneNumber: string, message: string)
      ensures Snapshot() == SmsFields(phoneNumber, message)
    {
      this.phoneNumber := phoneNumber;
      this.message := message;
    }

    function Snapshot(): Fields
      reads this
    {
      SmsFields(phoneNumber, message)
    }

    /** A new object carrying the same two field values. */
    method Clone() returns (c: SMSNotification)
      ensures fresh(c) && c.Snapshot() == Snapshot()
    {
      c := new SMSNotification(phoneNumber, message);
    }

    method Send() returns (line: string)
      ensures line == SendLine(Snapshot())
      ensures ChannelOfLine(line) == Some(SmsChannel)
    {
      line := "Sending SMS to " + phoneNumber + ": " + message;
      SendLineNamesChannel(Snapshot());
    }
  }

  /** A reference to an object implementing the notification interface. */
  datatype Notification = EmailNote(email: EmailNotification) | SmsNote(sms: SMSNotification)
  {
    function Object(): object
    {
      if EmailNote? then email else sms
    }

    function Snapshot(): (f: Fields)
      reads Object()
      ensures f.EmailFields? <==> EmailNote?
    {
      if EmailNote? then email.Snapshot() else sms.Snapshot()
    }

    /** Dispatches `clone()` to the variant: a new object of the same variant with equal fields. */
    method Clone() returns (c: Notification)
      ensures fresh(c.Object())
      ensures c.EmailNote? == EmailNote? && c.Snapshot() == Snapshot()
    {
      if EmailNote? {
        var e := email.Clone();
        c := EmailNote(e);
      } else {
        var s := sms.Clone();
        c := SmsNote(s);
      }
    }

    method Send() returns (line: string)
      ensures line == SendLine(Snapshot())
    {
      if EmailNote? {
        line := email.Send();
      } else {
        line := sms.Send();
      }
    }
  }

  /** The one failure of the registry: no template was ever registered under the kind. */
  datatype Error = LookupMiss(kind: string)

  class NotificationManager {
    /** Registered templates, held by reference. */
    var prototypes: map<string, Notification>

    constructor ()
      ensures prototypes == map[]
    {
      prototypes := map[];
    }

    /** Stores `prototype` under `kind`, replacing any earlier template; never fails. */
    method RegisterPrototype(kind: string, prototype: Notification)
      modifies this
      ensures prototypes == old(prototypes)[kind := prototype]
      ensures kind in prototypes && prototypes[kind] == prototype
      ensures forall other :: other != kind ==>
        (other in prototypes <==> other in old(prototypes)) &&
        (other in prototypes ==> prototypes[other] == old(prototypes)[other])
    {
      prototypes := prototypes[kind := prototype];
    }

    /** A clone of the template registered under `kind`, or a lookup miss; the registry is left as it was. */
    method CreateNotification(kind: string) returns (r: Result<Notification, Error>)
      ensures r.Failure? <==> kind !in prototypes
      ensures r.Failure? ==> r.error == LookupMiss(kind)
      ensures r.Success? ==>
        && fresh(r.value.Object())
        && r.value.EmailNote? == prototypes[kind].EmailNote?
        && r.value.Snapshot() == prototypes[kind].Snapshot()
    {
      if kind !in prototypes {
        return Failure(LookupMiss(kind));
      }
      var c := prototypes[kind].Clone();
      return Success(c);
    }
  }

  /** A clone's fields can be reassigned without touching the registered template. */
  method EditCloneSubject(m: NotificationManager, kind: string, subject: string) returns (edited: Fields)
    requires kind in m.prototypes && m.prototypes[kind].EmailNote?
    ensures edited == EmailFields(m.prototypes[kind].email.recipient, subject, m.prototypes[kind].email.body)
    ensures m.prototypes == old(m.prototypes)
    ensures m.prototypes[kind].Snapshot() == old(m.prototypes[kind].Snapshot())
  {
    var r := m.CreateNotification(kind);
    var c := r.value.email;
    c.subject := subject;
    edited := c.Snapshot();
  }

  /** Templates are held by reference: editing one after registration shows up in later clones. */
  method EditTemplateThenClone(m: NotificationManager, kind: string, subject: string) returns (later: Fields)
    requires kind in m.prototypes && m.prototypes[kind].EmailNote?
    modifies m.prototypes[kind].email
    ensures later == EmailFields(old(m.prototypes[kind].email.recipient), subject, old(m.prototypes[kind].email.body))
  {
    var template := m.prototypes[kind].email;
    template.subject := subject;
    var r := m.CreateNotification(kind);
    later := r.value.Snapshot();
  }

  /** The table after registering each `(kind, template)` pair of `regs`, in order, into an empty table. */
  function Replay<T>(regs: seq<(string, T)>): map<string, T>
  {
    if regs == [] then map[]
    else
      var last := regs[|regs| - 1];
      Replay(regs[..|regs| - 1])[last.0 := last.1]
  }

  /** After any sequence of registrations, a kind is missing exactly when it was never registered. */
  lemma {:induction false} ReplayMissIffNeverRegistered<T>(regs: seq<(string, T)>, kind: string)
    ensures kind !in Replay(regs) <==> forall i | 0 <= i < |regs| :: regs[i].0 != kind
  {
    if regs != [] {
      var init := regs[..|regs| - 1];
      ReplayMissIffNeverRegistered(init, kind);
      assert forall i | 0 <= i < |init| :: init[i] == regs[i];
    }
  }

  /** After any sequence of registrations, a kind maps to the template of its last registration. */
  lemma {:induction false} ReplayLastWriteWins<T>(regs: seq<(string, T)>, kind: string, i: nat)
    requires i < |regs| && regs[i].0 == kind
    requires forall j | i < j < |regs| :: regs[j].0 != kind
    ensures kind in Replay(regs) && Replay(regs)[kind] == regs[i].1
  {
    if i < |regs| - 1 {
      var init := regs[..|regs| - 1];
      assert forall j | i < j < |init| :: init[j] == regs[j];
      ReplayLastWriteWins(init, kind, i);
    }
  }

  /** A new manager after `registerPrototype` was called once for each pair of `regs`, in order. */
  method ManagerWith(regs: seq<(string, Notification)>) returns (m: NotificationManager)
    ensures fresh(m) && m.prototypes == Replay(regs)
  {
    m := new NotificationManager();
    var i := 0;
    while i < |regs|
      invariant 0 <= i <= |regs|
      invariant fresh(m) && m.prototypes == Replay(regs[..i])
    {
      assert regs[..i + 1][..i] == regs[..i];
      m.RegisterPrototype(regs[i].0, regs[i].1);
      i := i + 1;
    }
    assert regs[..|regs|] == regs;
  }

  /** Registering two templates under one kind, then creating it, clones the second and never the first. */
  method OverwriteThenCreate(kind: string, first: Notification, second: Notification) returns (r: Result<Notification, Error>)
    ensures r.Success? && r.value.EmailNote? == second.EmailNote? && r.value.Snapshot() == second.Snapshot()
  {
    var regs := [(kind, first), (kind, second)];
    var m := ManagerWith(regs);
    ReplayLastWriteWins(regs, kind, 1);
    r := m.CreateNotification(kind);
  }

  /** The first test: an email template registered under "email" clones field for field. */
  method CloneRegisteredEmail() returns (template: Fields, clone: Fields)
    ensures template == EmailFields("test@example.com", "Test Subject", "Test Body")
    ensures clone == template
  {
    var manager := new NotificationManager();
    var email := new EmailNotification("test@example.com", "Test Subject", "Test Body");
    manager.RegisterPrototype("email", EmailNote(email));
    var r := manager.CreateNotification("email");
    template, clone := email.Snapshot(), r.value.Snapshot();
  }

  /** The second test: an SMS template registered under "sms" clones field for field. */
  method CloneRegisteredSms() returns (template: Fields, clone: Fields)
    ensures template == SmsFields("+123456789", "Test Message")
    ensures clone == template
  {
    var manager := new NotificationManager();
    var sms := new SMSNotification("+123456789", "Test Message");
    manager.RegisterPrototype("sms", SmsNote(sms));
    var r := manager.CreateNotification("sms");
    template, clone := sms.Snapshot(), r.value.Snapshot();
  }

  /** The third test: a fresh manager has no template for "push". */
  method CreateUnregistered() returns (r: Result<Notification, Error>)
    ensures r == Failure(LookupMiss("push"))
  {
    var manager := new NotificationManager();
    r := manager.CreateNotification("push");
  }
}
