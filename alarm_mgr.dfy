/** The alarm manager: alarms are stored, and each stored alarm is handed to
    the update callbacks. A callback is known by an identifier; its effect
    is the record of its invocations. The clock reading and the store's
    answer are parameters. */
module AlarmMgr {
  import opened Wrappers
  import opened Errors
  import Values

  datatype Severity = Critical | Major | Minor | Warning
  datatype Status = Active | Cleared

  datatype Alarm = Alarm(
    id: string, name: string, originator: string, severity: Severity, status: Status,
    description: string, details: map<string, Values.Value>, updateTime: int, clearTime: int)

  /** The alarm as the store's `Upsert` leaves it in place before writing
      it: active, updated at `now`, with the zero clear time (0). */
  function Stamped(alarm: Alarm, now: int): (a: Alarm)
    ensures a.status == Active && a.updateTime == now && a.clearTime == 0
    ensures a.id == alarm.id && a.name == alarm.name && a.originator == alarm.originator
    ensures a.severity == alarm.severity && a.description == alarm.description && a.details == alarm.details
  {
    alarm.(status := Active, updateTime := now, clearTime := 0)
  }

  /** A registered callback. */
  type Callback = nat

  class Manager {
    /** The update callbacks, in registration order. */
    var callbacks: seq<Callback>
    /** Every callback invocation so far, in order. */
    var invoked: seq<(Callback, Alarm)>

    constructor ()
      ensures callbacks == [] && invoked == []
    {
      callbacks, invoked := [], [];
    }

    /** `OnUpdate`: registers a callback after the others. */
    method OnUpdate(cb: Callback)
      modifies this
      ensures callbacks == old(callbacks) + [cb]
      ensures invoked == old(invoked)
    {
      callbacks := callbacks + [cb];
    }

    /** `Upsert`: the store stamps the alarm in place and stores it; if that
        fails, the error is returned and nothing is called; otherwise the
        alarm gets the stored id and every callback is called once, in
        order, with it. `now` is the clock reading, `stored` the store's
        answer: the id of the stored alarm, or its error. `updated` is the
        caller's alarm after the call. */
    method Upsert(alarm: Alarm, now: int, stored: Result<string, Error>) returns (err: Option<Error>, updated: Alarm)
      modifies this
      ensures callbacks == old(callbacks)
      ensures stored.Err? ==> err == Some(stored.error) && updated == Stamped(alarm, now) && invoked == old(invoked)
      ensures stored.Ok? ==>
                err.None? && updated == Stamped(alarm, now).(id := stored.value) &&
                invoked == old(invoked) + Calls(callbacks, updated)
    {
      updated := Stamped(alarm, now);
      if stored.Err? {
        return Some(stored.error), updated;
      }
      updated := updated.(id := stored.value);
      var i := 0;
      while i < |callbacks|
        invariant 0 <= i <= |callbacks| && callbacks == old(callbacks)
        invariant invoked == old(invoked) + Calls(callbacks[..i], updated)
      {
        invoked := invoked + [(callbacks[i], updated)];
        CallsSnoc(callbacks[..i], callbacks[i], updated);
        assert callbacks[..i + 1] == callbacks[..i] + [callbacks[i]];
        i := i + 1;
      }
      assert callbacks[..i] == callbacks;
      return None, updated;
    }
  }

  /** The invocations of the given callbacks, in order, with one alarm. */
  function Calls(cbs: seq<Callback>, alarm: Alarm): (calls: seq<(Callback, Alarm)>)
    ensures |calls| == |cbs|
    ensures forall i | 0 <= i < |cbs| :: calls[i] == (cbs[i], alarm)
  {
    seq(|cbs|, i requires 0 <= i < |cbs| => (cbs[i], alarm))
  }

  lemma CallsSnoc(cbs: seq<Callback>, cb: Callback, alarm: Alarm)
    ensures Calls(cbs + [cb], alarm) == Calls(cbs, alarm) + [(cb, alarm)]
  {
  }

  /** Callbacks registered one after the other are all called on each
      successful upsert, in the order they were registered, with the active
      alarm as stored. */
  method RegisterThenUpsert(m: Manager, a: Callback, b: Callback, alarm: Alarm, now: int, id: string)
    returns (err: Option<Error>, stored: Alarm)
    requires m.callbacks == []
    modifies m
    ensures err.None? && stored.status == Active && stored.id == id && stored.updateTime == now
    ensures m.invoked == old(m.invoked) + [(a, stored), (b, stored)]
  {
    m.OnUpdate(a);
    m.OnUpdate(b);
    err, stored := m.Upsert(alarm, now, Ok(id));
  }
}
