/**
 * The execution context the host entry point works through: it wraps host
 * float buffers as device buffer handles, copies them in either direction,
 * releases them, dispatches the device computation and records timing
 * checkpoints. Handles are abstract; each moves through a small state machine,
 * and every operation is recorded as an event.
 */
module DeviceContext {
  import opened Wrappers

  /** Identity of a device buffer handle. */
  type HandleId = nat

  /** Identity of a caller-owned host float buffer. */
  type HostBuffer = nat

  datatype HandleState =
    | Wrapped        // created from host memory, nothing transferred yet
    | OnDevice       // last transfer was host -> device
    | CopiedToHost   // last transfer was device -> host
    | Released       // deleted; must not be used again

  /** A handle: the host region it is paired with, its element count and its state. */
  datatype Handle = Handle(host: HostBuffer, size: int, state: HandleState)

  datatype Event =
    | TimeCheck(name: string)
    | Wrap(id: HandleId, size: int, host: HostBuffer)
    | CopyToDevice(id: HandleId)
    | Compute(batchSize: int, inputs: HandleId, gradOutput: HandleId, gradInput: HandleId)
    | CopyToHost(id: HandleId)
    | Release(id: HandleId)

  type Handles = map<HandleId, Handle>

  /** A handle that exists and has not been released may be used. */
  predicate Live(hs: Handles, h: HandleId) {
    h in hs && hs[h].state != Released
  }

  /** The handles an event touches. */
  predicate Mentions(e: Event, h: HandleId) {
    match e
    case TimeCheck(_) => false
    case Wrap(id, _, _) => id == h
    case CopyToDevice(id) => id == h
    case Compute(_, i, o, g) => h == i || h == o || h == g
    case CopyToHost(id) => id == h
    case Release(id) => id == h
  }

  /**
   * The effect of one event on the handle table, or None when the event is not
   * allowed there: wrapping an id already in use, or using a handle that does
   * not exist or has been released.
   */
  function Apply(hs: Handles, e: Event): Option<Handles>
  {
    match e
    case TimeCheck(_) => Some(hs)
    case Wrap(h, size, host) => if h in hs then None else Some(hs[h := Handle(host, size, Wrapped)])
    case CopyToDevice(h) => if Live(hs, h) then Some(hs[h := hs[h].(state := OnDevice)]) else None
    case Compute(_, i, o, g) => if Live(hs, i) && Live(hs, o) && Live(hs, g) then Some(hs) else None
    case CopyToHost(h) => if Live(hs, h) then Some(hs[h := hs[h].(state := CopiedToHost)]) else None
    case Release(h) => if Live(hs, h) then Some(hs[h := hs[h].(state := Released)]) else None
  }

  /**
   * What a permitted event does: only a wrap adds a handle, handles it does not
   * name are unchanged, a released handle is never named, a release leaves its
   * handle released and a wrap creates a fresh, wrapped handle.
   */
  lemma ApplyFrame(hs: Handles, e: Event)
    ensures Apply(hs, e).Some? ==> Apply(hs, e).value.Keys == if e.Wrap? then hs.Keys + {e.id} else hs.Keys
    ensures Apply(hs, e).Some? ==> forall h | h in hs && !Mentions(e, h) :: Apply(hs, e).value[h] == hs[h]
    ensures Apply(hs, e).Some? ==> forall h | h in hs && hs[h].state == Released :: !Mentions(e, h)
    ensures Apply(hs, e).Some? && e.Release? ==> e.id in Apply(hs, e).value && Apply(hs, e).value[e.id].state == Released
    ensures Apply(hs, e).Some? && e.Wrap? ==> e.id !in hs && Apply(hs, e).value[e.id] == Handle(e.host, e.size, Wrapped)
  {
  }

  /** Replays a sequence of events from a handle table; None as soon as one is not allowed. */
  function Run(hs: Handles, log: seq<Event>): (r: Option<Handles>)
    ensures r.Some? ==> hs.Keys <= r.value.Keys
    decreases |log|
  {
    if log == [] then Some(hs)
    else match Apply(hs, log[0])
      case None => None
      case Some(m) => ApplyFrame(hs, log[0]); Run(m, log[1..])
  }

  lemma RunCons(hs: Handles, e: Event, rest: seq<Event>)
    ensures Run(hs, [e] + rest) == if Apply(hs, e).Some? then Run(Apply(hs, e).value, rest) else None
  {
    assert ([e] + rest)[1..] == rest;
  }

  /** Replaying two logs one after the other is replaying their concatenation. */
  lemma {:induction false} RunConcat(hs: Handles, a: seq<Event>, b: seq<Event>)
    ensures Run(hs, a + b) == if Run(hs, a).Some? then Run(Run(hs, a).value, b) else None
    decreases |a|
  {
    if a == [] {
      assert a + b == b;
    } else {
      assert (a + b)[1..] == a[1..] + b;
      if Apply(hs, a[0]).Some? {
        RunConcat(Apply(hs, a[0]).value, a[1..], b);
      }
    }
  }

  /** Appending one event to a replayable log applies that event to the table it reached. */
  lemma RunSnoc(hs: Handles, log: seq<Event>, e: Event)
    ensures Run(hs, log + [e]) == if Run(hs, log).Some? then Apply(Run(hs, log).value, e) else None
  {
    RunConcat(hs, log, [e]);
    if Run(hs, log).Some? {
      RunCons(Run(hs, log).value, e, []);
    }
  }

  /** No event touches a handle after the event that released it. */
  ghost predicate NoUseAfterRelease(log: seq<Event>) {
    forall i, j | 0 <= i < j < |log| && log[i].Release? :: !Mentions(log[j], log[i].id)
  }

  /**
   * Every replayable log is free of use after release: a released handle stays
   * in the table, released, and is never mentioned again. In particular no
   * handle is released twice.
   */
  lemma {:induction false} RunNeverTouchesReleased(hs: Handles, log: seq<Event>)
    requires Run(hs, log).Some?
    ensures NoUseAfterRelease(log)
    ensures forall i | 0 <= i < |log| && log[i].Release? ::
      log[i].id in Run(hs, log).value && Run(hs, log).value[log[i].id].state == Released
    ensures forall h | h in hs && hs[h].state == Released ::
      Run(hs, log).value[h] == hs[h] && forall j | 0 <= j < |log| :: !Mentions(log[j], h)
    decreases |log|
  {
    if log != [] {
      var e, rest := log[0], log[1..];
      var m1 := Apply(hs, e).value;
      ApplyFrame(hs, e);
      RunNeverTouchesReleased(m1, rest);
      var m := Run(hs, log).value;
      assert m == Run(m1, rest).value;
      forall i, j | 0 <= i < j < |log| && log[i].Release?
        ensures !Mentions(log[j], log[i].id)
      {
        assert log[j] == rest[j - 1];
        if i > 0 {
          assert log[i] == rest[i - 1];
        }
      }
      forall i | 0 <= i < |log| && log[i].Release?
        ensures log[i].id in m && m[log[i].id].state == Released
      {
        if i > 0 {
          assert log[i] == rest[i - 1];
        }
      }
      forall h | h in hs && hs[h].state == Released
        ensures m[h] == hs[h] && forall j | 0 <= j < |log| :: !Mentions(log[j], h)
      {
        forall j | 0 <= j < |log| ensures !Mentions(log[j], h) {
          if j > 0 {
            assert log[j] == rest[j - 1];
          }
        }
      }
    }
  }

  /** The events that touch handle `h`, in order: its lifecycle. */
  function EventsOn(log: seq<Event>, h: HandleId): seq<Event>
    decreases |log|
  {
    if log == [] then []
    else (if Mentions(log[0], h) then [log[0]] else []) + EventsOn(log[1..], h)
  }

  lemma EventsOnCons(e: Event, rest: seq<Event>, h: HandleId)
    ensures EventsOn([e] + rest, h) == (if Mentions(e, h) then [e] else []) + EventsOn(rest, h)
  {
    assert ([e] + rest)[1..] == rest;
  }

  /** The lifecycle of a handle over a three-event log keeps the events that mention it, in order. */
  lemma EventsOnTriple(a: Event, b: Event, c: Event, h: HandleId)
    ensures EventsOn([a, b, c], h)
         == (if Mentions(a, h) then [a] else []) + (if Mentions(b, h) then [b] else []) + (if Mentions(c, h) then [c] else [])
  {
    assert [a, b, c] == [a] + ([b] + ([c] + []));
    EventsOnCons(c, [], h);
    EventsOnCons(b, [c] + [], h);
    EventsOnCons(a, [b] + ([c] + []), h);
  }

  /** The lifecycle of a handle over two logs is its lifecycle over the first, then over the second. */
  lemma {:induction false} EventsOnConcat(a: seq<Event>, b: seq<Event>, h: HandleId)
    ensures EventsOn(a + b, h) == EventsOn(a, h) + EventsOn(b, h)
    decreases |a|
  {
    if a == [] {
      assert a + b == b;
    } else {
      var x := if Mentions(a[0], h) then [a[0]] else [];
      assert (a + b)[0] == a[0] && (a + b)[1..] == a[1..] + b;
      EventsOnConcat(a[1..], b, h);
      calc {
        EventsOn(a + b, h);
        x + EventsOn(a[1..] + b, h);
        x + (EventsOn(a[1..], h) + EventsOn(b, h));
        (x + EventsOn(a[1..], h)) + EventsOn(b, h);
      }
    }
  }

  /** The lifecycle of a handle over three logs in a row. */
  lemma EventsOnConcat3(a: seq<Event>, b: seq<Event>, c: seq<Event>, h: HandleId)
    ensures EventsOn(a + b + c, h) == EventsOn(a, h) + EventsOn(b, h) + EventsOn(c, h)
  {
    EventsOnConcat(a, b, h);
    EventsOnConcat(a + b, c, h);
  }

  /**
   * The execution context together with the timer: the table of handles it has
   * created, the next fresh handle id, and the log of every operation so far.
   */
  class Context {
    var handles: Handles
    var nextId: HandleId
    ghost var log: seq<Event>

    /** The table is what replaying the log yields, and fresh ids are above every used one. */
    ghost predicate Valid()
      reads this
    {
      && Run(map[], log) == Some(handles)
      && forall h | h in handles :: h < nextId
    }

    constructor ()
      ensures Valid() && handles == map[] && nextId == 0 && log == []
    {
      handles, nextId, log := map[], 0, [];
    }

    /** Records a named timing checkpoint. */
    method TimeCheck(name: string)
      requires Valid()
      modifies this
      ensures Valid()
      ensures handles == old(handles) && nextId == old(nextId)
      ensures log == old(log) + [Event.TimeCheck(name)]
    {
      RunSnoc(map[], log, Event.TimeCheck(name));
      log := log + [Event.TimeCheck(name)];
    }

    /** Pairs a host buffer of `size` floats with a new handle. */
    method Wrap(size: int, host: HostBuffer) returns (h: HandleId)
      requires Valid()
      modifies this
      ensures Valid()
      ensures h == old(nextId) && h !in old(handles) && nextId == h + 1
      ensures handles == old(handles)[h := Handle(host, size, Wrapped)]
      ensures log == old(log) + [Event.Wrap(h, size, host)]
    {
      h := nextId;
      RunSnoc(map[], log, Event.Wrap(h, size, host));
      handles := handles[h := Handle(host, size, Wrapped)];
      nextId := nextId + 1;
      log := log + [Event.Wrap(h, size, host)];
    }

    method CopyToDevice(h: HandleId)
      requires Valid() && Live(handles, h)
      modifies this
      ensures Valid()
      ensures handles == old(handles)[h := old(handles)[h].(state := OnDevice)] && nextId == old(nextId)
      ensures log == old(log) + [Event.CopyToDevice(h)]
    {
      RunSnoc(map[], log, Event.CopyToDevice(h));
      handles := handles[h := handles[h].(state := OnDevice)];
      log := log + [Event.CopyToDevice(h)];
    }

    method CopyToHost(h: HandleId)
      requires Valid() && Live(handles, h)
      modifies this
      ensures Valid()
      ensures handles == old(handles)[h := old(handles)[h].(state := CopiedToHost)] && nextId == old(nextId)
      ensures log == old(log) + [Event.CopyToHost(h)]
    {
      RunSnoc(map[], log, Event.CopyToHost(h));
      handles := handles[h := handles[h].(state := CopiedToHost)];
      log := log + [Event.CopyToHost(h)];
    }

    /** Deletes a handle; it stays in the table as released. */
    method Release(h: HandleId)
      requires Valid() && Live(handles, h)
      modifies this
      ensures Valid()
      ensures handles == old(handles)[h := old(handles)[h].(state := Released)] && nextId == old(nextId)
      ensures log == old(log) + [Event.Release(h)]
    {
      RunSnoc(map[], log, Event.Release(h));
      handles := handles[h := handles[h].(state := Released)];
      log := log + [Event.Release(h)];
    }

    /**
     * Records the dispatch of the device computation on three live handles. What
     * the computation does to the device memory of `gradInput` is not modelled.
     */
    method Compute(batchSize: int, inputs: HandleId, gradOutput: HandleId, gradInput: HandleId)
      requires Valid() && Live(handles, inputs) && Live(handles, gradOutput) && Live(handles, gradInput)
      modifies this
      ensures Valid()
      ensures handles == old(handles) && nextId == old(nextId)
      ensures log == old(log) + [Event.Compute(batchSize, inputs, gradOutput, gradInput)]
    {
      RunSnoc(map[], log, Event.Compute(batchSize, inputs, gradOutput, gradInput));
      log := log + [Event.Compute(batchSize, inputs, gradOutput, gradInput)];
    }
  }
}
