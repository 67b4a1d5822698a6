/** The session-handle lifecycle of `TelegramClientManager` as a state machine
    over values. `start` puts a newly built handle into `client`, overwriting
    whatever was there; `stop` disconnects the held handle, if any, and clears
    `client`. Two logs that the program does not keep make its behaviour
    observable: every handle `start` has built, and every disconnect, in order. */
module Lifecycle {
  import opened Wrappers

  datatype State<H> = State(client: Option<H>, created: seq<H>, released: seq<H>)

  /** A call on the manager: `start`, building handle `handle`, or `stop`. */
  datatype Call<H> = Start(handle: H) | Stop

  function Initial<H>(): State<H> {
    State(None, [], [])
  }

  function Step<H>(s: State<H>, c: Call<H>): State<H> {
    match c
    case Start(h) => s.(client := Some(h), created := s.created + [h])
    case Stop => if s.client.None? then s else s.(client := None, released := s.released + [s.client.value])
  }

  function Run<H>(s: State<H>, calls: seq<Call<H>>): State<H>
    decreases |calls|
  {
    if calls == [] then s else Run(Step(s, calls[0]), calls[1..])
  }

  /** Running a non-empty run is taking its first step, then the rest. */
  lemma RunCons<H>(s: State<H>, c: Call<H>, rest: seq<Call<H>>)
    ensures Run(s, [c] + rest) == Run(Step(s, c), rest)
  {
  }

  ghost predicate Distinct<H>(xs: seq<H>) {
    forall i, j :: 0 <= i < j < |xs| ==> xs[i] != xs[j]
  }

  /** The handles a run builds are new: none equals one built before it. */
  ghost predicate FreshHandles<H>(s: State<H>, calls: seq<Call<H>>)
    decreases |calls|
  {
    calls == [] ||
    ((calls[0].Start? ==> calls[0].handle !in s.created) && FreshHandles(Step(s, calls[0]), calls[1..]))
  }

  /** Every disconnect is of a handle that was built, no handle is disconnected
      twice, and the held handle has not been disconnected yet. */
  ghost predicate Sound<H>(s: State<H>) {
    && Distinct(s.created)
    && Distinct(s.released)
    && (forall h :: h in s.released ==> h in s.created)
    && (s.client.Some? ==> s.client.value in s.created && s.client.value !in s.released)
  }

  /** No handle has been leaked: each one built is still held or was disconnected. */
  ghost predicate NoLeak<H>(s: State<H>) {
    forall h :: h in s.created ==> s.client == Some(h) || h in s.released
  }

  /** A run that never calls `start` while a handle is held. */
  ghost predicate Guarded<H>(s: State<H>, calls: seq<Call<H>>)
    decreases |calls|
  {
    calls == [] ||
    ((calls[0].Start? ==> s.client.None?) && Guarded(Step(s, calls[0]), calls[1..]))
  }

  lemma {:induction false} RunAppend<H>(s: State<H>, a: seq<Call<H>>, b: seq<Call<H>>)
    ensures Run(s, a + b) == Run(Run(s, a), b)
    decreases |a|
  {
    if a == [] {
      assert a + b == b;
    } else {
      assert (a + b)[0] == a[0];
      assert (a + b)[1..] == a[1..] + b;
      RunAppend(Step(s, a[0]), a[1..], b);
    }
  }

  /** One step keeps the state sound when `start` is given a new handle. */
  lemma StepKeepsSound<H>(s: State<H>, c: Call<H>)
    requires Sound(s)
    requires c.Start? ==> c.handle !in s.created
    ensures Sound(Step(s, c))
  {
  }

  /** Along any run that builds only new handles, no handle is disconnected
      twice and every disconnect is of a handle the manager built. */
  lemma {:induction false} RunKeepsSound<H>(s: State<H>, calls: seq<Call<H>>)
    requires Sound(s) && FreshHandles(s, calls)
    ensures Sound(Run(s, calls))
    decreases |calls|
  {
    if calls != [] {
      StepKeepsSound(s, calls[0]);
      RunKeepsSound(Step(s, calls[0]), calls[1..]);
    }
  }

  /** A single step keeps every built handle accounted for exactly when it is
      not a `start` issued while a handle is held: a second `start` loses the
      first handle without disconnecting it. */
  lemma StepNoLeakIff<H>(s: State<H>, c: Call<H>)
    requires Sound(s) && NoLeak(s)
    requires c.Start? ==> c.handle !in s.created
    ensures NoLeak(Step(s, c)) <==> (c.Start? ==> s.client.None?)
  {
  }

  /** A run that never starts while a handle is held leaks no handle. */
  lemma {:induction false} GuardedRunNoLeak<H>(s: State<H>, calls: seq<Call<H>>)
    requires Sound(s) && NoLeak(s)
    requires FreshHandles(s, calls) && Guarded(s, calls)
    ensures NoLeak(Run(s, calls))
    decreases |calls|
  {
    if calls != [] {
      StepNoLeakIff(s, calls[0]);
      StepKeepsSound(s, calls[0]);
      GuardedRunNoLeak(Step(s, calls[0]), calls[1..]);
    }
  }

  /** A second `stop` has no effect, wherever it occurs in a run. */
  lemma StopTwiceIsStopOnce<H>(s: State<H>, before: seq<Call<H>>, after: seq<Call<H>>)
    ensures Run(s, before + [Stop, Stop] + after) == Run(s, before + [Stop] + after)
  {
    var once := Step(Run(s, before), Stop);
    assert Step(once, Stop) == once;
    calc {
      Run(s, before + [Stop, Stop] + after);
      { RunAppend(s, before + [Stop, Stop], after); }
      Run(Run(s, before + [Stop, Stop]), after);
      { RunAppend(s, before, [Stop, Stop]); }
      Run(Run(Run(s, before), [Stop, Stop]), after);
      Run(once, after);
      Run(Run(Run(s, before), [Stop]), after);
      { RunAppend(s, before, [Stop]); }
      Run(Run(s, before + [Stop]), after);
      { RunAppend(s, before + [Stop], after); }
      Run(s, before + [Stop] + after);
    }
  }

  /** After `stop` no handle is held, however the run got there. */
  lemma StopReleases<H>(s: State<H>, calls: seq<Call<H>>)
    ensures Run(s, calls + [Stop]).client.None?
  {
    RunAppend(s, calls, [Stop]);
  }

  /** The calls one scoped acquisition makes: `start`, and `stop` on the way
      out unless `start` itself raised. */
  function ScopeCalls<H>(h: H, started: bool): seq<Call<H>> {
    if started then [Start(h), Stop] else [Start(h)]
  }

  /** A scope entered without a held handle disconnects its handle exactly
      once and leaves nothing held, so it leaks nothing; a scope whose `start`
      raised leaves its handle held and not disconnected. */
  lemma ScopeEffect<H>(s: State<H>, h: H, started: bool)
    requires Sound(s) && NoLeak(s) && s.client.None? && h !in s.created
    ensures var t := Run(s, ScopeCalls(h, started));
      && Sound(t)
      && t.created == s.created + [h]
      && (started ==> t.client.None? && t.released == s.released + [h] && NoLeak(t))
      && (!started ==> t.client == Some(h) && t.released == s.released)
  {
    var s1 := Step(s, Start(h));
    RunCons(s, Start(h), ScopeCalls(h, started)[1..]);
    if started {
      RunCons(s1, Stop, []);
      assert ScopeCalls(h, started) == [Start(h)] + [Stop];
    } else {
      assert ScopeCalls(h, started) == [Start(h)] + [];
    }
    assert FreshHandles(s, ScopeCalls(h, started));
    RunKeepsSound(s, ScopeCalls(h, started));
    if started {
      assert Guarded(s, ScopeCalls(h, started));
      GuardedRunNoLeak(s, ScopeCalls(h, started));
    }
  }

  /** The manager is reusable: after a start/stop cycle a second `start`
      holds its new handle, and the first one stays disconnected. */
  lemma Reusable<H>(s: State<H>, first: H, second: H)
    ensures var t := Run(s, [Start(first), Stop, Start(second)]);
      t.client == Some(second) && t.released == s.released + [first]
  {
    RunCons(s, Start(first), [Stop, Start(second)]);
    RunCons(Step(s, Start(first)), Stop, [Start(second)]);
    RunCons(Step(Step(s, Start(first)), Stop), Start(second), []);
  }

  /** Starting twice without a `stop` loses the first handle. */
  lemma DoubleStartLeaks<H>(s: State<H>, first: H, second: H)
    requires Sound(s) && first != second && first !in s.created
    ensures !NoLeak(Run(s, [Start(first), Start(second)]))
  {
    RunCons(s, Start(first), [Start(second)]);
    RunCons(Step(s, Start(first)), Start(second), []);
    assert first in Run(s, [Start(first), Start(second)]).created;
  }
}
