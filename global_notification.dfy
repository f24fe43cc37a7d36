/**
 * getNotificationEvents: the trigger events of a global notification setting,
 * read off the submitted form when a setting is created or updated.
 */
module GlobalNotification {
  /**
   * One `(key, value)` entry of the submitted form, in the order `Object.keys`
   * lists them. A JavaScript object has distinct keys, so `form[key]` is the
   * entry's own value.
   */
  type FormEntry = (string, string)

  const TRIGGER_EVENT_PREFIX: string := "triggerEvent"

  /** `key.match(/^triggerEvent/)` */
  predicate IsTriggerEventKey(key: string) {
    |TRIGGER_EVENT_PREFIX| <= |key| && key[..|TRIGGER_EVENT_PREFIX|] == TRIGGER_EVENT_PREFIX
  }

  /** A form value is truthy exactly when it is a non-empty string. */
  predicate Truthy(value: string) {
    value != ""
  }

  /** `Object.keys(form).filter(key => key.match(/^triggerEvent/))`, kept with each key's value. */
  function TriggerEventEntries(form: seq<FormEntry>): (entries: seq<FormEntry>)
    ensures |entries| <= |form|
    ensures forall i :: 0 <= i < |entries| ==> IsTriggerEventKey(entries[i].0)
  {
    if form == [] then []
    else
      var last := form[|form| - 1];
      TriggerEventEntries(form[..|form| - 1]) + (if IsTriggerEventKey(last.0) then [last] else [])
  }

  /** The truthy values of `entries`, in order. */
  function TruthyValues(entries: seq<FormEntry>): seq<string> {
    if entries == [] then []
    else
      var last := entries[|entries| - 1];
      TruthyValues(entries[..|entries| - 1]) + (if Truthy(last.1) then [last.1] else [])
  }

  /** What getNotificationEvents returns for `form`. */
  function NotificationEvents(form: seq<FormEntry>): seq<string> {
    TruthyValues(TriggerEventEntries(form))
  }

  /**
   * getNotificationEvents: walks the trigger-event keys and pushes each truthy
   * value. At most one event per trigger-event key, and never an empty one.
   */
  method GetNotificationEvents(form: seq<FormEntry>) returns (triggerEvents: seq<string>)
    ensures triggerEvents == NotificationEvents(form)
    ensures |triggerEvents| <= |TriggerEventEntries(form)|
    ensures forall i :: 0 <= i < |triggerEvents| ==> Truthy(triggerEvents[i])
  {
    triggerEvents := [];
    var triggerEventKeys := TriggerEventEntries(form);
    var i := 0;
    while i < |triggerEventKeys|
      invariant 0 <= i <= |triggerEventKeys|
      invariant triggerEvents == TruthyValues(triggerEventKeys[..i])
      invariant |triggerEvents| <= i
      invariant forall j :: 0 <= j < |triggerEvents| ==> Truthy(triggerEvents[j])
    {
      var entry := triggerEventKeys[i];
      assert triggerEventKeys[..i + 1][..i] == triggerEventKeys[..i];
      if Truthy(entry.1) {
        triggerEvents := triggerEvents + [entry.1];
      }
      i := i + 1;
    }
    assert triggerEventKeys[..i] == triggerEventKeys;
  }

  /**
   * A value is an event exactly when some entry with a trigger-event key carries
   * it and it is non-empty; other keys and empty values are dropped.
   */
  lemma {:induction false} NotificationEventsMembers(form: seq<FormEntry>, v: string)
    ensures v in NotificationEvents(form) <==>
      exists i :: 0 <= i < |form| && form[i].1 == v && IsTriggerEventKey(form[i].0) && Truthy(v)
  {
    if form != [] {
      var init := form[..|form| - 1];
      NotificationEventsMembers(init, v);
      var last := form[|form| - 1];
      var e := TriggerEventEntries(init);
      var tail := if IsTriggerEventKey(last.0) then [last] else [];
      TruthyValuesAppend(e, tail);
      assert TriggerEventEntries(form) == e + tail;
      if exists i :: 0 <= i < |form| && form[i].1 == v && IsTriggerEventKey(form[i].0) && Truthy(v) {
        var i :| 0 <= i < |form| && form[i].1 == v && IsTriggerEventKey(form[i].0) && Truthy(v);
        if i < |form| - 1 {
          assert init[i] == form[i];
        }
      }
      if v in NotificationEvents(init) {
        var i :| 0 <= i < |init| && init[i].1 == v && IsTriggerEventKey(init[i].0) && Truthy(v);
        assert form[i] == init[i];
      }
    }
  }

  /** Selecting truthy values distributes over concatenation. */
  lemma {:induction false} TruthyValuesAppend(a: seq<FormEntry>, b: seq<FormEntry>)
    ensures TruthyValues(a + b) == TruthyValues(a) + TruthyValues(b)
    decreases |b|
  {
    if b != [] {
      var init := b[..|b| - 1];
      assert (a + b)[..|a + b| - 1] == a + init;
      TruthyValuesAppend(a, init);
    } else {
      assert a + b == a;
    }
  }

  /** Filtering trigger-event keys distributes over concatenation. */
  lemma {:induction false} TriggerEventEntriesAppend(a: seq<FormEntry>, b: seq<FormEntry>)
    ensures TriggerEventEntries(a + b) == TriggerEventEntries(a) + TriggerEventEntries(b)
    decreases |b|
  {
    if b != [] {
      var init := b[..|b| - 1];
      assert (a + b)[..|a + b| - 1] == a + init;
      TriggerEventEntriesAppend(a, init);
    } else {
      assert a + b == a;
    }
  }

  /**
   * Events keep the form's key order: the events of a form split in two are the
   * events of the first part followed by those of the second.
   */
  lemma NotificationEventsInOrder(a: seq<FormEntry>, b: seq<FormEntry>)
    ensures NotificationEvents(a + b) == NotificationEvents(a) + NotificationEvents(b)
  {
    TriggerEventEntriesAppend(a, b);
    TruthyValuesAppend(TriggerEventEntries(a), TriggerEventEntries(b));
  }

  /** Entries whose key is not a trigger-event key, or whose value is empty, add no event. */
  lemma DroppedEntry(a: seq<FormEntry>, e: FormEntry, b: seq<FormEntry>)
    requires !IsTriggerEventKey(e.0) || !Truthy(e.1)
    ensures NotificationEvents(a + [e] + b) == NotificationEvents(a + b)
  {
    NotificationEventsInOrder(a + [e], b);
    NotificationEventsInOrder(a, [e]);
    NotificationEventsInOrder(a, b);
    assert [e][..0] == [];
  }
}
