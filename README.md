# Notification design patterns, modelled in Dafny

This project models the three pieces of a design-pattern catalogue that hold state with behaviour: the
Prototype registry of notification templates, the two fluent notification Builders, and the lazily
created Singleton notification service. Every other file of the catalogue only picks a subclass and
prints a line.

- `prototype.dfy` (module `Prototype`): `EmailNotification` (recipient, subject, body) and
  `SMSNotification` (phone number, message) as classes with public mutable fields, each with `Clone`
  (a fresh object with equal fields) and `Send` (its console line). The notification interface is the
  datatype `Notification`, a reference to one of the two classes. `NotificationManager` keeps a
  `map<string, Notification>` of templates held by reference. `RegisterPrototype` overwrites one entry.
  `CreateNotification` clones the entry or fails with `LookupMiss`. `Replay` is the table after any
  sequence of registrations, and `ManagerWith` shows that a manager given those `RegisterPrototype` calls
  holds exactly that table; two lemmas about it give "missing iff never registered" and "last write wins".
  Two client methods show what storage by reference means: editing a clone leaves the template alone, and
  editing a template changes later clones.
- `builder.dfy` (module `Builder`): `EmailNotificationBuilder` and `SMSNotificationBuilder` with private
  fields that start as `""`. Each setter overwrites its own field and returns the builder itself.
  `SMSNotificationBuilder.SetSubject` always fails with "Method not implemented.". `Build` returns a
  fresh field-less product of its variant together with its console line. `EmailRun` and `SmsRun` give a
  builder's fields after any chain of setter calls; on a throw `SmsRun` keeps the fields the earlier
  setters wrote, as the in-place updates do. The chain lemmas show that each field holds the last value
  given for it (before the first subject call, for SMS), and that an SMS chain fails exactly when it calls
  the subject setter. The console lines of `send` and `build` are read back by `ParseLine`.
- `singleton.dfy` (module `Singleton`): `NotificationServiceStatics` stands for the static side of
  `NotificationService`, the `instance` field. `GetInstance` sets that field on the first call only and
  returns it from then on. A ghost counter of constructor runs is tied to the field by `Valid()`.
  `GetInstanceStep` gives one call's effect on the field and its output, and `CallsOutput` chains it;
  `GetInstanceRepeatedly` calls `GetInstance` any number of times and is proved to write exactly
  `CallsOutput`, with every call returning the same instance. `SendNotification` hands the
  notification exactly one `send` call.
- `text.dfy` and `wrappers.dfy`: prefix stripping for reading console lines back, and `Option`/`Result`.

Console output is modelled as returned lines (`string` or `seq<string>`), not as printing.
The parameter the source calls `type` is called `kind` here, because `type` is a Dafny keyword.

Two facts about the code shape the model:
- The notification fields are public and assignable (src/prototype/prototype.ts:24-28, 62-65), and the
  registry stores the template object itself (src/prototype/prototype.ts:107). So a template edited after
  registration shows the edit in later clones (`Prototype.EditTemplateThenClone`).
- The comment beside the demonstration's email call (src/prototype/prototype.ts:132) gives another output
  format than the code. The model uses the template strings at src/prototype/prototype.ts:45 and 82.

## Model

| member | source | states |
|---|---|---|
| `Prototype.EmailNotification.constructor` | src/prototype/prototype.ts:24-28 | the new notification holds exactly the given recipient, subject and body |
| `Prototype.EmailNotification.Clone` | src/prototype/prototype.ts:35-37 | the clone is a newly allocated object whose three fields equal this one's |
| `Prototype.EmailNotification.Send` | src/prototype/prototype.ts:44-46 | the line is "Sending email to R with subject S and body B" for the current fields, and it reads back as an email line |
| `Prototype.SMSNotification.constructor` | src/prototype/prototype.ts:62-65 | the new notification holds exactly the given phone number and message |
| `Prototype.SMSNotification.Clone` | src/prototype/prototype.ts:72-74 | the clone is a newly allocated object whose two fields equal this one's |
| `Prototype.SMSNotification.Send` | src/prototype/prototype.ts:81-83 | the line is "Sending SMS to P: M" for the current fields, and it reads back as an SMS line |
| `Prototype.Notification.Clone` | src/prototype/prototype.ts:6-9 | calling `clone()` through the interface gives a fresh object of the same variant with equal fields |
| `Prototype.Notification.Send` | src/prototype/prototype.ts:6-9 | calling `send()` through the interface writes the variant's line for the current fields |
| `Prototype.SendLineNamesChannel` | src/prototype/prototype.ts:45-82 | the opening words of every send line identify the variant that wrote it (email and SMS lines never coincide) |
| `Prototype.NotificationManager.constructor` | src/prototype/prototype.ts:97 | a new manager has no templates |
| `Prototype.NotificationManager.RegisterPrototype` | src/prototype/prototype.ts:106-108 | afterwards the kind maps to the given template, replacing any earlier one; every other kind keeps its entry or stays absent; never fails |
| `Prototype.NotificationManager.CreateNotification` | src/prototype/prototype.ts:116-118 | fails with LookupMiss exactly when the kind is not registered; otherwise returns a fresh object of the template's variant with the template's field values; the registry and templates are unchanged |
| `Prototype.EditCloneSubject` | src/prototype/prototype.ts:35-37 | assigning a clone's subject changes the clone only: the registry and the template's fields stay as they were |
| `Prototype.EditTemplateThenClone` | src/prototype/prototype.ts:107 | the registry holds the template itself, so a subject assigned to the template after registration appears in the next clone |
| `Prototype.ReplayMissIffNeverRegistered` | src/prototype/prototype.ts:106-118 | after any sequence of registrations, a kind is absent (so creation misses) exactly when no registration named it |
| `Prototype.ReplayLastWriteWins` | src/prototype/prototype.ts:106-108 | after any sequence of registrations, a kind maps to the template of its last registration |
| `Prototype.ManagerWith` | src/prototype/prototype.ts:106-108 | a new manager given one `registerPrototype` call per pair, in order, holds exactly the table `Replay` describes |
| `Prototype.OverwriteThenCreate` | src/prototype/prototype.ts:106-118 | registering two templates under one kind and then creating it yields a clone of the second, of its variant and with its fields |
| `Prototype.CloneRegisteredEmail` | test/prototype/prototype.test.ts:11-21 | registering an email template under "email" and creating it yields a clone with the template's recipient, subject and body |
| `Prototype.CloneRegisteredSms` | test/prototype/prototype.test.ts:23-32 | registering an SMS template under "sms" and creating it yields a clone with the template's phone number and message |
| `Prototype.CreateUnregistered` | test/prototype/prototype.test.ts:34-36 | creating "push" on a fresh manager fails with a lookup miss |
| `Builder.EmailNotification.Send` | src/builder/builder.ts:31-33 | the line is "Sending Email Notification: " followed by the message, whatever the product |
| `Builder.SMSNotification.Send` | src/builder/builder.ts:43-45 | the line is "Sending SMS Notification: " followed by the message, whatever the product |
| `Builder.SendLineRoundTrip` | src/builder/builder.ts:31-45 | a product's send line reads back as its variant and exactly the message given |
| `Builder.BuildLineRoundTrip` | src/builder/builder.ts:147-216 | a build line reads back as the builder's variant and exactly its recipient |
| `Builder.EmailNotificationBuilder.constructor` | src/builder/builder.ts:95-107 | recipient, subject and message all start as "" |
| `Builder.EmailNotificationBuilder.SetRecipient` | src/builder/builder.ts:115-118 | sets the recipient only, keeps subject and message, returns the same builder |
| `Builder.EmailNotificationBuilder.SetSubject` | src/builder/builder.ts:126-129 | sets the subject only, keeps recipient and message, returns the same builder |
| `Builder.EmailNotificationBuilder.SetMessage` | src/builder/builder.ts:137-140 | sets the message only, keeps recipient and subject, returns the same builder |
| `Builder.EmailNotificationBuilder.Build` | src/builder/builder.ts:147-151 | returns a new email product and the line "Building Email Notification to " + recipient; changes no builder field |
| `Builder.SMSNotificationBuilder.constructor` | src/builder/builder.ts:166-172 | recipient and message start as "" |
| `Builder.SMSNotificationBuilder.SetRecipient` | src/builder/builder.ts:181-184 | sets the recipient only, keeps the message, returns the same builder |
| `Builder.SMSNotificationBuilder.SetSubject` | src/builder/builder.ts:192-194 | always fails with "Method not implemented." and changes nothing |
| `Builder.SMSNotificationBuilder.SetMessage` | src/builder/builder.ts:202-205 | sets the message only, keeps the recipient, returns the same builder |
| `Builder.SMSNotificationBuilder.Build` | src/builder/builder.ts:212-216 | returns a new SMS product and the line "Building SMS Notification to " + recipient; changes no builder field |
| `Builder.EmailChainLastWins` | src/builder/builder.ts:115-140 | after any chain of setter calls each email builder field holds the last value given for it, or its starting value if none was |
| `Builder.UntilSubjectIsLongestFreePrefix` | src/builder/builder.ts:192-194 | the calls that run before a throw are the longest prefix of the chain without a subject call; the call after them, if any, is the subject setter |
| `Builder.SmsChainFailsIffSubject` | src/builder/builder.ts:181-205 | a chain on an SMS builder fails exactly when it calls the subject setter, and then with "Method not implemented." |
| `Builder.SmsChainLastWins` | src/builder/builder.ts:181-205 | after any chain on an SMS builder, each field holds the last value given for it before the first subject call, or its starting value; setters before a throw stay applied |
| `Builder.SubjectThrowKeepsEarlierSetters` | src/builder/builder.ts:181-216 | after `setRecipient("a")` and a throwing `setSubject`, the builder still holds "a" and `build` logs "Building SMS Notification to a" |
| `Builder.BuildEmailChain` | test/builder/builder.test.ts:8-17 | the test's full email chain leaves the three values in the builder and builds an email product for "John Doe" |
| `Builder.BuildSmsChain` | test/builder/builder.test.ts:24-32 | the test's SMS chain leaves recipient and message in the builder and builds an SMS product for "Jane Doe" |
| `Builder.SmsSubjectThrows` | test/builder/builder.test.ts:39-44 | the subject setter of a fresh SMS builder fails with "Method not implemented." and the builder stays blank |
| `Singleton.NotificationService.SendNotification` | src/singleton/singleton.ts:48-50 | the only output is the one line of a single `send()` call on the given notification |
| `Singleton.NotificationServiceStatics.constructor` | src/singleton/singleton.ts:19 | the static instance field starts unset and the constructor has not run |
| `Singleton.NotificationServiceStatics.GetInstance` | src/singleton/singleton.ts:36-41 | the first call constructs a fresh instance and writes "NotificationService initialized"; every later call returns the stored instance, writes nothing and reassigns nothing; the constructor count is at most one |
| `Singleton.ConstructorRunsAtMostOnce` | src/singleton/singleton.ts:26-28 | over any positive number of calls, the constructor's line is written exactly once if the field started unset, and never if it was set |
| `Singleton.GetInstanceRepeatedly` | src/singleton/singleton.ts:36-41 | any number of successive `getInstance` calls all return the stored instance, never reassign a set field, and write exactly `CallsOutput`: at most one constructor line |
| `Singleton.GetInstanceTwice` | test/singleton/singleton.test.ts:17-22 | two successive calls return the same instance and the constructor has run once |

## Left out

- Console I/O: every `console.log` is a returned line; nothing is printed.
- The self-invoking demonstration blocks at the end of each file are scripts, not logic.
- The Abstract Factory and Factory Method files: each of their methods only constructs an object or logs a line.
- The registry is a plain string-keyed map: inherited keys of a JavaScript object (such as "toString") and the special "__proto__" key are not modelled.
- Prototype.NotificationManager.CreateNotification: the source fails on a miss with a JavaScript TypeError from calling `clone()` on `undefined`; the model returns an explicit `LookupMiss` failure instead of that error class.
- Prototype.EditCloneSubject: shown for an email template's subject only; the other fields and the SMS variant follow from the same `fresh` clone and are not restated.
- Prototype.EditTemplateThenClone: shown for an email template's subject only, for the same reason.
- Singleton.NotificationService.SendNotification: the source accepts any object with a `send()` method (the test passes a mock); the model accepts the notification interface of the Prototype example, since Dafny traits are not used here.
- Singleton.NotificationServiceStatics.GetInstance: a static field has no Dafny counterpart, so the static side of the class is an explicit object passed to its callers.
- Class hierarchies and `instanceof`: the variants are separate classes or a datatype tag; the builders' `build` returns its product class directly rather than the abstract notification type.
- The test harness's spies and stubs are not modelled; the call count they check is the single output line of `SendNotification`.
