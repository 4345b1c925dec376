/**
 EnvManager.Prepare of pkg/runtime/env.go as a protocol: any number of goroutines ask for environments
 by cache key; `creating` maps a key to the channel its creator will close. Each action is one step of
 one goroutine between which others may run.
 */
module SingleFlight {
  /** Where a goroutine stands in Prepare; `ok` says whether it has an environment to return. */
  datatype Pc =
    | CheckCache
    | TakeLock
    | Waiting(ch: nat)
    | Creating(ch: nat)
    | Deferred(ch: nat, ok: bool)
    | Returned(ok: bool)

  datatype Caller = Caller(key: string, pc: Pc)

  datatype State = State(
    callers: map<nat, Caller>,
    creating: map<string, nat>,
    closed: set<nat>,
    cached: set<string>,
    // Channels are numbered in the order they are made; the maker of each is history.
    made: nat,
    maker: map<nat, nat>)

  datatype Action =
    | Call(g: nat, key: string)
    | Check(g: nat)
    | Lock(g: nat)
    | Create(g: nat, ok: bool)
    | Release(g: nat)
    | Wake(g: nat)
    | Cancel(g: nat)

  /** Nobody has called yet; some environments may be cached from before. */
  predicate Init(s: State) {
    s == State(map[], map[], {}, s.cached, 0, map[])
  }

  function Move(s: State, g: nat, pc: Pc): State
    requires g in s.callers
  {
    s.(callers := s.callers[g := s.callers[g].(pc := pc)])
  }

  predicate Enabled(s: State, a: Action) {
    if a.Call? then a.g !in s.callers
    else
      && a.g in s.callers
      && var pc := s.callers[a.g].pc;
         match a
         case Call(_, _) => false
         case Check(_) => pc.CheckCache?
         case Lock(_) => pc.TakeLock?
         case Create(_, _) => pc.Creating?
         case Release(_) => pc.Deferred?
         case Wake(_) => pc.Waiting? && pc.ch in s.closed
         case Cancel(_) => pc.Waiting?
  }

  function After(s: State, a: Action): State
    requires Enabled(s, a)
  {
    match a
    case Call(g, key) => s.(callers := s.callers[g := Caller(key, CheckCache)])
    case Check(g) => Move(s, g, if s.callers[g].key in s.cached then Returned(true) else TakeLock)
    case Lock(g) =>
      var key := s.callers[g].key;
      if key in s.creating then
        Move(s, g, Waiting(s.creating[key]))
      else
        Move(s.(creating := s.creating[key := s.made], made := s.made + 1, maker := s.maker[s.made := g]),
             g, Creating(s.made))
    case Create(g, ok) =>
      Move(if ok then s.(cached := s.cached + {s.callers[g].key}) else s, g, Deferred(s.callers[g].pc.ch, ok))
    case Release(g) =>
      var c := s.callers[g];
      Move(s.(creating := s.creating - {c.key}, closed := s.closed + {c.pc.ch}), g, Returned(c.pc.ok))
    case Wake(g) => Move(s, g, Returned(s.callers[g].key in s.cached))
    case Cancel(g) => Move(s, g, Returned(false))
  }

  ghost predicate Step(s: State, s': State) {
    exists a :: Enabled(s, a) && s' == After(s, a)
  }

  ghost predicate StepAt(run: seq<State>, i: nat)
    requires i + 1 < |run|
  {
    Step(run[i], run[i + 1])
  }

  ghost predicate IsRun(run: seq<State>) {
    && |run| > 0 && Init(run[0])
    && forall i: nat {:trigger StepAt(run, i)} | i + 1 < |run| :: StepAt(run, i)
  }

  // ----- the invariant -----

  /** A goroutine between taking the slot of a key and giving it back. */
  predicate Holds(s: State, g: nat, ch: nat) {
    g in s.callers && (s.callers[g].pc.Creating? || s.callers[g].pc.Deferred?) && s.callers[g].pc.ch == ch
  }

  ghost predicate SlotOk(s: State, key: string)
    requires key in s.creating
  {
    var ch := s.creating[key];
    ch in s.maker && Holds(s, s.maker[ch], ch) && s.callers[s.maker[ch]].key == key
  }

  ghost predicate CallerOk(s: State, g: nat)
    requires g in s.callers
  {
    var c := s.callers[g];
    match c.pc
    case Waiting(ch) =>
      && ch in s.maker && s.maker[ch] in s.callers && s.callers[s.maker[ch]].key == c.key && s.maker[ch] != g
    case Creating(ch) => c.key in s.creating && s.creating[c.key] == ch && ch in s.maker && s.maker[ch] == g
    case Deferred(ch, _) => c.key in s.creating && s.creating[c.key] == ch && ch in s.maker && s.maker[ch] == g
    case _ => true
  }

  ghost predicate ChannelOk(s: State, ch: nat)
    requires ch in s.maker
  {
    && s.maker[ch] in s.callers
    && (ch in s.closed <==> s.callers[s.maker[ch]].pc.Returned?)
    && (ch !in s.closed ==> Holds(s, s.maker[ch], ch))
  }

  ghost predicate Inv(s: State) {
    && s.closed <= s.maker.Keys && (forall ch | ch in s.maker :: ch < s.made)
    && (forall key {:trigger SlotOk(s, key)} | key in s.creating :: SlotOk(s, key))
    && (forall g {:trigger CallerOk(s, g)} | g in s.callers :: CallerOk(s, g))
    && (forall ch {:trigger ChannelOk(s, ch)} | ch in s.maker :: ChannelOk(s, ch))
  }

  lemma SlotsKept(s: State, a: Action, key: string)
    requires Inv(s) && Enabled(s, a) && key in After(s, a).creating
    ensures SlotOk(After(s, a), key)
  {
    if key in s.creating { assert SlotOk(s, key); }
    if !a.Call? {
      assert CallerOk(s, a.g);
      var own := s.callers[a.g].key;
      if own in s.creating { assert SlotOk(s, own); }
    }
  }

  lemma CallersKept(s: State, a: Action, g: nat)
    requires Inv(s) && Enabled(s, a) && g in After(s, a).callers
    ensures CallerOk(After(s, a), g)
  {
    if g in s.callers {
      assert CallerOk(s, g);
      var own := s.callers[g].key;
      if own in s.creating { assert SlotOk(s, own); }
    }
    if a.g in s.callers { assert CallerOk(s, a.g); }
  }

  lemma ChannelsKept(s: State, a: Action, ch: nat)
    requires Inv(s) && Enabled(s, a) && ch in After(s, a).maker
    ensures ChannelOk(After(s, a), ch)
  {
    if ch in s.maker { assert ChannelOk(s, ch); }
    if a.g in s.callers { assert CallerOk(s, a.g); }
  }

  lemma InvKept(s: State, a: Action)
    requires Inv(s) && Enabled(s, a)
    ensures Inv(After(s, a))
  {
    var s' := After(s, a);
    if a.Release? { assert CallerOk(s, a.g); }
    forall key | key in s'.creating ensures SlotOk(s', key) { SlotsKept(s, a, key); }
    forall g | g in s'.callers ensures CallerOk(s', g) { CallersKept(s, a, g); }
    forall ch | ch in s'.maker ensures ChannelOk(s', ch) { ChannelsKept(s, a, ch); }
  }

  lemma {:induction false} InvAlways(run: seq<State>, i: nat)
    requires IsRun(run) && i < |run|
    ensures Inv(run[i])
    decreases i
  {
    if i > 0 {
      InvAlways(run, i - 1);
      assert StepAt(run, i - 1);
      var a :| Enabled(run[i - 1], a) && run[i] == After(run[i - 1], a);
      InvKept(run[i - 1], a);
    }
  }

  // ----- what every run keeps -----

  predicate Creates(s: State, g: nat, key: string) {
    g in s.callers && s.callers[g].key == key && (s.callers[g].pc.Creating? || s.callers[g].pc.Deferred?)
  }

  /** At most one goroutine creates the environment of a key at a time. */
  lemma OneCreator(run: seq<State>, i: nat, g: nat, g': nat, key: string)
    requires IsRun(run) && i < |run| && Creates(run[i], g, key) && Creates(run[i], g', key)
    ensures g == g'
  {
    InvAlways(run, i);
    assert CallerOk(run[i], g) && CallerOk(run[i], g');
  }

  /** `creating` holds a key exactly while some goroutine creates its environment. */
  lemma SlotIffCreator(run: seq<State>, i: nat, key: string)
    requires IsRun(run) && i < |run|
    ensures key in run[i].creating <==> exists g :: Creates(run[i], g, key)
  {
    var s := run[i];
    InvAlways(run, i);
    if key in s.creating {
      assert SlotOk(s, key);
      assert Creates(s, s.maker[s.creating[key]], key);
    }
    if exists g :: Creates(s, g, key) {
      var g :| Creates(s, g, key);
      assert CallerOk(s, g);
    }
  }

  /** A waiter is released exactly by the return of the one creator it found, a creator of its own key. */
  lemma ReleasedByCreator(run: seq<State>, i: nat, g: nat)
    requires IsRun(run) && i < |run| && g in run[i].callers && run[i].callers[g].pc.Waiting?
    ensures
      var s := run[i];
      var ch := s.callers[g].pc.ch;
      && ch in s.maker && s.maker[ch] in s.callers && s.maker[ch] != g
      && s.callers[s.maker[ch]].key == s.callers[g].key
      && (Enabled(s, Wake(g)) <==> s.callers[s.maker[ch]].pc.Returned?)
      && (!Enabled(s, Wake(g)) ==> Creates(s, s.maker[ch], s.callers[g].key))
  {
    var s := run[i];
    InvAlways(run, i);
    assert CallerOk(s, g);
    assert ChannelOk(s, s.callers[g].pc.ch);
  }

  // ----- what is created is found -----

  /** Whoever has an environment to return has it in the cache. */
  ghost predicate Ready(s: State) {
    forall g | g in s.callers && (s.callers[g].pc.Deferred? || s.callers[g].pc.Returned?) && s.callers[g].pc.ok ::
      s.callers[g].key in s.cached
  }

  lemma ReadyKept(s: State, a: Action)
    requires Ready(s) && Enabled(s, a)
    ensures Ready(After(s, a)) && s.cached <= After(s, a).cached
  {
  }

  lemma {:induction false} ReadyAlways(run: seq<State>, i: nat)
    requires IsRun(run) && i < |run|
    ensures Ready(run[i])
    decreases i
  {
    if i > 0 {
      ReadyAlways(run, i - 1);
      assert StepAt(run, i - 1);
      var a :| Enabled(run[i - 1], a) && run[i] == After(run[i - 1], a);
      ReadyKept(run[i - 1], a);
    }
  }

  /** A creation that succeeds puts the environment into the cache; one that fails leaves it as it was. */
  lemma CreationIsCached(s: State, g: nat, ok: bool)
    requires Enabled(s, Create(g, ok))
    ensures After(s, Create(g, ok)).cached == if ok then s.cached + {s.callers[g].key} else s.cached
  {
  }

  /** A waiter whose creator succeeded returns the environment; so does the creator. */
  lemma WaiterIsServed(run: seq<State>, i: nat, g: nat)
    requires IsRun(run) && i < |run| && Enabled(run[i], Wake(g))
    ensures
      var s := run[i];
      && s.callers[g].pc.ch in s.maker
      && var c := s.maker[s.callers[g].pc.ch];
         c in s.callers && s.callers[c].pc.Returned? &&
         (s.callers[c].pc.ok ==> After(s, Wake(g)).callers[g].pc == Returned(true))
  {
    InvAlways(run, i);
    ReadyAlways(run, i);
    assert CallerOk(run[i], g);
    assert ChannelOk(run[i], run[i].callers[g].pc.ch);
  }

  /** The goroutine has not looked into the cache yet, or found what it looked for. */
  predicate UpToCheck(s: State, g: nat, key: string) {
    g in s.callers ==> s.callers[g].key == key ==> s.callers[g].pc in {CheckCache, Returned(true)}
  }

  /**
   Once an environment is in the cache, no goroutine that looks from then on takes the lock, waits or
   creates: it returns the environment. Only one that had looked before can create it again.
   */
  lemma {:induction false} LaterCallersFind(run: seq<State>, i: nat, j: nat, g: nat, key: string)
    requires IsRun(run) && i <= j < |run| && key in run[i].cached && UpToCheck(run[i], g, key)
    ensures key in run[j].cached && UpToCheck(run[j], g, key) && !Creates(run[j], g, key)
    decreases j
  {
    if i < j {
      LaterCallersFind(run, i, j - 1, g, key);
      assert StepAt(run, j - 1);
      var a :| Enabled(run[j - 1], a) && run[j] == After(run[j - 1], a);
    }
  }

  lemma Extend(run: seq<State>, a: Action) returns (run': seq<State>)
    requires IsRun(run) && Enabled(run[|run| - 1], a)
    ensures IsRun(run') && run' == run + [After(run[|run| - 1], a)]
  {
    run' := run + [After(run[|run| - 1], a)];
    forall i: nat | i + 1 < |run'| ensures StepAt(run', i) {
      if i + 1 < |run| {
        assert StepAt(run, i);
      } else {
        assert Enabled(run'[i], a);
      }
    }
  }

  /** Which does happen: both look, one creates and returns, then the other creates once more. */
  lemma CreatedTwiceExample(key: string) returns (run: seq<State>)
    ensures IsRun(run) && var s := run[|run| - 1]; key in s.cached && Creates(s, 1, key)
  {
    run := [State(map[], map[], {}, {}, 0, map[])];
    run := Extend(run, Call(0, key));
    run := Extend(run, Call(1, key));
    run := Extend(run, Check(0));
    run := Extend(run, Check(1));
    run := Extend(run, Lock(0));
    run := Extend(run, Create(0, true));
    run := Extend(run, Release(0));
    run := Extend(run, Lock(1));
  }
}
