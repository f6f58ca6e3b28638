/**
 * The Singleton example: a notification service whose one instance is
 * created lazily by `getInstance` and kept in a static field, and whose
 * `sendNotification` hands a notification its `send` call.
 */
module Singleton {
  import Prototype

  /** The console line the private constructor writes. */
  const InitializedLine := "NotificationService initialized"

  class NotificationService {
    constructor ()
    {
    }

    /** Calls `send()` on the notification exactly once and does nothing else. */
    method SendNotification(notification: Prototype.Notification) returns (output: seq<string>)
      ensures output == [Prototype.SendLine(notification.Snapshot())]
    {
      var line := notification.Send();
      output := [line];
    }
  }

  /** One `getInstance` call on the field state `wasSet`: whether the field is set afterwards, and what it writes. */
  function GetInstanceStep(wasSet: bool): (bool, seq<string>)
  {
    if wasSet then (true, []) else (true, [InitializedLine])
  }

  /** What `calls` successive `getInstance` calls write, the first one seeing the field as `wasSet`. */
  function CallsOutput(wasSet: bool, calls: nat): seq<string>
    decreases calls
  {
    if calls == 0 then []
    else
      var (setAfter, written) := GetInstanceStep(wasSet);
      written + CallsOutput(setAfter, calls - 1)
  }

  /** Over any positive number of calls the constructor's line is written once if the field started unset, never otherwise. */
  lemma {:induction false} ConstructorRunsAtMostOnce(wasSet: bool, calls: nat)
    ensures CallsOutput(wasSet, calls) == if !wasSet && calls > 0 then [InitializedLine] else []
    decreases calls
  {
    if calls > 0 {
      ConstructorRunsAtMostOnce(true, calls - 1);
    }
  }

  /** The static side of NotificationService: the lazily set `instance` field. */
  class NotificationServiceStatics {
    var instance: NotificationService?
    /** How many times the private constructor has run. */
    ghost var constructions: nat

    ghost predicate Valid()
      reads this
    {
      constructions == if instance == null then 0 else 1
    }

    constructor ()
      ensures Valid() && instance == null
    {
      instance := null;
      constructions := 0;
    }

    /** The one instance, created on the first call only. */
    method GetInstance() returns (service: NotificationService, output: seq<string>)
      requires Valid()
      modifies this
      ensures Valid() && instance == service
      ensures (instance != null, output) == GetInstanceStep(old(instance) != null)
      ensures old(instance) == null ==> fresh(service) && constructions == 1
      ensures old(instance) != null ==> service == old(instance) && constructions == old(constructions)
    {
      if instance == null {
        instance := new NotificationService();
        constructions := constructions + 1;
        output := [InitializedLine];
      } else {
        output := [];
      }
      service := instance;
    }
  }

  /** Any number of successive calls: all return one instance, and their output is `CallsOutput`. */
  method GetInstanceRepeatedly(statics: NotificationServiceStatics, calls: nat) returns (services: seq<NotificationService>, output: seq<string>)
    requires statics.Valid()
    modifies statics
    ensures statics.Valid() && |services| == calls
    ensures forall i | 0 <= i < calls :: services[i] == statics.instance
    ensures old(statics.instance) != null ==> statics.instance == old(statics.instance)
    ensures output == CallsOutput(old(statics.instance) != null, calls)
  {
    ghost var wasSet := statics.instance != null;
    services, output := [], [];
    var i := 0;
    while i < calls
      invariant 0 <= i <= calls && statics.Valid()
      invariant |services| == i
      invariant i > 0 ==> statics.instance != null
      invariant forall j | 0 <= j < i :: services[j] == statics.instance
      invariant (wasSet || i == 0) ==> statics.instance == old(statics.instance)
      invariant output == if !wasSet && i > 0 then [InitializedLine] else []
    {
      var service, written := statics.GetInstance();
      services := services + [service];
      output := output + written;
      i := i + 1;
    }
    ConstructorRunsAtMostOnce(wasSet, calls);
  }

  /** The first singleton test: two calls return the same instance. */
  method GetInstanceTwice(statics: NotificationServiceStatics) returns (first: NotificationService, second: NotificationService)
    requires statics.Valid()
    modifies statics
    ensures statics.Valid() && first == second && statics.constructions == 1
  {
    var out1, out2;
    first, out1 := statics.GetInstance();
    second, out2 := statics.GetInstance();
  }
}
