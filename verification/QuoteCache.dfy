/**
 The single-flight cache. `Look`, `Land` and `Drop` are its three critical sections; between them
 any number of calls may be under way. A run is any sequence of their steps.
 */
module QuoteCache {
  import opened Wrappers

  type Data = string

  datatype Failure = Upstream(status: int) | Cancelled

  type Outcome = Result<Data, Failure>

  /** `source` is the flight that the data came from. */
  datatype Entry = Entry(data: Data, expires: int, source: nat)

  /** A shared record of one load; `started` is the step at which it began. */
  datatype Flight = Flight(key: string, started: int, outcome: Option<Outcome>, invalidated: bool)

  /** `flights` names the registered record of a key; `records` holds all that were ever made. */
  datatype Store = Store(entries: map<string, Entry>, flights: map<string, nat>, records: seq<Flight>, limit: nat)

  datatype Found = Hit(data: Data, source: nat) | Join(flight: nat) | Load(flight: nat)

  /** The first section of a `get`: a live entry, a load to wait for, or a load to make. */
  function Look(c: Store, key: string, now: int, step: int): (Store, Found) {
    if key in c.entries && now < c.entries[key].expires then (c, Hit(c.entries[key].data, c.entries[key].source))
    else if key in c.flights then (c, Join(c.flights[key]))
    else
      var f := |c.records|;
      (c.(flights := c.flights[key := f], records := c.records + [Flight(key, step, None, false)]), Load(f))
  }

  /** Some entry has to go when the store is full; which one is not said. */
  predicate MayEvict(c: Store, victim: Option<string>) {
    if |c.entries| >= c.limit && c.entries != map[] then victim.Some? && victim.value in c.entries else victim.None?
  }

  /**
   The second section of a `get` that loaded: the outcome is published, and kept unless it failed or
   was overtaken.
   */
  function Land(c: Store, flight: nat, outcome: Outcome, expires: int, victim: Option<string>): Store
    requires flight < |c.records|
  {
    var f := c.records[flight];
    var open := if f.key in c.flights && c.flights[f.key] == flight then c.flights - {f.key} else c.flights;
    var landed := c.(flights := open, records := c.records[flight := f.(outcome := Some(outcome))]);
    if outcome.Failure? || f.invalidated then landed
    else
      var room := if victim.Some? then c.entries - {victim.value} else c.entries;
      landed.(entries := room[f.key := Entry(outcome.value, expires, flight)])
  }

  predicate Stores(c: Store, flight: nat, outcome: Outcome) {
    outcome.Success? && flight < |c.records| && !c.records[flight].invalidated
  }

  predicate MayLand(c: Store, flight: nat, outcome: Outcome, victim: Option<string>) {
    flight < |c.records| && if Stores(c, flight, outcome) then MayEvict(c, victim) else victim.None?
  }

  function Drop(c: Store, key: string): Store {
    var gone := c.(entries := c.entries - {key});
    if key in c.flights && c.flights[key] < |c.records| then
      gone.(flights := c.flights - {key},
            records := c.records[c.flights[key] := c.records[c.flights[key]].(invalidated := true)])
    else gone
  }

  class Cache {
    var entries: map<string, Entry>
    var flights: map<string, nat>
    var records: seq<Flight>
    const limit: nat

    function View(): Store
      reads this
    {
      Store(entries, flights, records, limit)
    }

    constructor (limit: nat)
      ensures View() == Store(map[], map[], [], limit)
    {
      entries, flights, records, this.limit := map[], map[], [], limit;
    }

    method Begin(key: string, now: int, step: int) returns (found: Found)
      modifies this
      ensures (View(), found) == Look(old(View()), key, now, step)
    {
      if key in entries && now < entries[key].expires { return Hit(entries[key].data, entries[key].source); }
      if key in flights { return Join(flights[key]); }
      found := Load(|records|);
      flights := flights[key := |records|];
      records := records + [Flight(key, step, None, false)];
    }

    method Finish(flight: nat, outcome: Outcome, expires: int) returns (ghost victim: Option<string>)
      requires flight < |records|
      modifies this
      ensures MayLand(old(View()), flight, outcome, victim)
      ensures View() == Land(old(View()), flight, outcome, expires, victim)
    {
      victim := None;
      var f := records[flight];
      if f.key in flights && flights[f.key] == flight { flights := flights - {f.key}; }
      if outcome.Success? && !f.invalidated {
        if |entries| >= limit && entries != map[] {
          SomeKey(entries);
          var oldest :| oldest in entries;
          entries := entries - {oldest};
          victim := Some(oldest);
        }
        entries := entries[f.key := Entry(outcome.value, expires, flight)];
      }
      records := records[flight := f.(outcome := Some(outcome))];
    }

    method Invalidate(key: string)
      requires forall k :: k in flights ==> flights[k] < |records|
      modifies this
      ensures View() == Drop(old(View()), key)
    {
      entries := entries - {key};
      if key in flights {
        records := records[flights[key] := records[flights[key]].(invalidated := true)];
        flights := flights - {key};
      }
    }
  }

  lemma SomeKey(m: map<string, Entry>)
    requires m != map[]
    ensures exists k :: k in m
  {
    assert m.Keys != {} || m == map[];
  }

  /** One call of `get`. `floor` is the last invalidation of its key that it came after. */
  datatype Call = Loading(key: string, floor: int, flight: nat)
                | Waiting(key: string, floor: int, flight: nat)
                | Done(key: string, floor: int, outcome: Outcome, source: Option<nat>)

  /** `drops` says when each key was last invalidated; `steps` counts the steps taken. */
  datatype System = System(store: Store, calls: seq<Call>, drops: map<string, int>, steps: nat)

  datatype Step =
    | Get(key: string, now: int)
    | Return(call: nat, outcome: Outcome, expires: int, victim: Option<string>)
    | Wake(call: nat)
    | GiveUp(call: nat)
    | Invalidate(key: string)

  function DroppedAt(s: System, key: string): int { if key in s.drops then s.drops[key] else -1 }

  /** Steps that are not possible change nothing but the count. */
  function Next(s: System, step: Step): System {
    var t := s.(steps := s.steps + 1);
    match step
    case Get(key, now) =>
      var (store, found) := Look(s.store, key, now, s.steps);
      var floor := DroppedAt(s, key);
      var call := match found
        case Hit(data, source) => Done(key, floor, Success(data), Some(source))
        case Join(f) => Waiting(key, floor, f)
        case Load(f) => Loading(key, floor, f);
      t.(store := store, calls := s.calls + [call])
    case Return(i, outcome, expires, victim) =>
      if i < |s.calls| && s.calls[i].Loading? && MayLand(s.store, s.calls[i].flight, outcome, victim) then
        var call := s.calls[i];
        t.(store := Land(s.store, call.flight, outcome, expires, victim),
           calls := s.calls[i := Done(call.key, call.floor, outcome, Some(call.flight))])
      else t
    case Wake(i) =>
      if i < |s.calls| && s.calls[i].Waiting? && s.calls[i].flight < |s.store.records|
        && s.store.records[s.calls[i].flight].outcome.Some? then
        var call := s.calls[i];
        t.(calls := s.calls[i := Done(call.key, call.floor, s.store.records[call.flight].outcome.value,
                                      Some(call.flight))])
      else t
    case GiveUp(i) =>
      if i < |s.calls| && s.calls[i].Waiting?
      then t.(calls := s.calls[i := Done(s.calls[i].key, s.calls[i].floor, Failure(Cancelled), None)]) else t
    case Invalidate(key) => t.(store := Drop(s.store, key), drops := s.drops[key := s.steps])
  }

  function Run(limit: nat, steps: seq<Step>): System {
    if steps == [] then System(Store(map[], map[], [], limit), [], map[], 0)
    else Next(Run(limit, steps[..|steps| - 1]), steps[|steps| - 1])
  }

  /** The registered load of a key is unfinished, not invalidated, and younger than the last invalidation. */
  ghost predicate FlightsOk(s: System) {
    forall k :: k in s.store.flights ==>
      && s.store.flights[k] < |s.store.records|
      && var f := s.store.records[s.store.flights[k]];
         f.key == k && f.outcome.None? && !f.invalidated && f.started > DroppedAt(s, k)
  }

  /** Every unfinished load that was not invalidated is the registered one, so there is at most one a key. */
  ghost predicate OpenIsRegistered(s: System) {
    forall f :: 0 <= f < |s.store.records| && s.store.records[f].outcome.None? && !s.store.records[f].invalidated ==>
      s.store.records[f].key in s.store.flights && s.store.flights[s.store.records[f].key] == f
  }

  /** What is stored came from a load that succeeded and is younger than the last invalidation. */
  ghost predicate EntriesOk(s: System) {
    forall k :: k in s.store.entries ==>
      && s.store.entries[k].source < |s.store.records|
      && var f := s.store.records[s.store.entries[k].source];
         f.key == k && f.outcome == Some(Success(s.store.entries[k].data)) && f.started > DroppedAt(s, k)
  }

  ghost predicate CallOk(s: System, c: Call) {
    match c
    case Loading(key, floor, f) =>
      && f < |s.store.records| && s.store.records[f].key == key
      && s.store.records[f].outcome.None? && s.store.records[f].started > floor
    case Waiting(key, floor, f) =>
      f < |s.store.records| && s.store.records[f].key == key && s.store.records[f].started > floor
    case Done(key, floor, outcome, source) =>
      && (source.None? ==> outcome == Failure(Cancelled))
      && (source.Some? ==>
        && source.value < |s.store.records|
        && s.store.records[source.value].key == key && s.store.records[source.value].started > floor
        && s.store.records[source.value].outcome == Some(outcome))
  }

  ghost predicate CallsOk(s: System) {
    && (forall i :: 0 <= i < |s.calls| ==> CallOk(s, s.calls[i]))
    && (forall i, j :: 0 <= i < j < |s.calls| && s.calls[i].Loading? && s.calls[j].Loading? ==>
        s.calls[i].flight != s.calls[j].flight)
  }

  ghost predicate Bounded(s: System) {
    |s.store.entries| <= if s.store.limit >= 1 then s.store.limit else 1
  }

  ghost predicate DropsArePast(s: System) {
    forall k :: k in s.drops ==> 0 <= s.drops[k] < s.steps
  }

  ghost predicate Good(s: System) {
    FlightsOk(s) && OpenIsRegistered(s) && EntriesOk(s) && CallsOk(s) && Bounded(s) && DropsArePast(s)
  }

  /** Records only ever gain an outcome or the invalidation mark, and an outcome never changes. */
  ghost predicate Keeps(c: Store, d: Store) {
    && |c.records| <= |d.records|
    && forall f :: 0 <= f < |c.records| ==>
         && d.records[f].key == c.records[f].key && d.records[f].started == c.records[f].started
         && (c.records[f].outcome.Some? ==> d.records[f].outcome == c.records[f].outcome)
         && (c.records[f].invalidated ==> d.records[f].invalidated)
  }

  lemma CallStaysOk(s: System, t: System, c: Call)
    requires CallOk(s, c) && Keeps(s.store, t.store)
    requires c.Loading? ==> c.flight < |t.store.records| && t.store.records[c.flight].outcome.None?
    ensures CallOk(t, c)
  {
  }

  /** The parts of the invariant that are about the store alone. */
  ghost predicate StoreOk(s: System) {
    FlightsOk(s) && OpenIsRegistered(s) && EntriesOk(s) && Bounded(s) && DropsArePast(s)
  }

  /** A new load is registered. */
  ghost predicate Registers(s: System, key: string, t: System) {
    && t.store == s.store.(flights := s.store.flights[key := |s.store.records|],
                           records := s.store.records + [Flight(key, s.steps, None, false)])
    && t.drops == s.drops && t.steps == s.steps + 1 && key !in s.store.flights
  }

  lemma RegisteredFlights(s: System, key: string, t: System)
    requires FlightsOk(s) && DropsArePast(s) && Registers(s, key, t)
    ensures FlightsOk(t) && DropsArePast(t)
  {
  }

  lemma RegisteredOpens(s: System, key: string, t: System)
    requires OpenIsRegistered(s) && Registers(s, key, t)
    ensures OpenIsRegistered(t)
  {
    var n := |s.store.records|;
    forall f | 0 <= f < |t.store.records| && t.store.records[f].outcome.None? && !t.store.records[f].invalidated
      ensures t.store.records[f].key in t.store.flights && t.store.flights[t.store.records[f].key] == f
    {
      if f < n { assert t.store.records[f] == s.store.records[f]; }
    }
  }

  lemma RegisteredEntries(s: System, key: string, t: System)
    requires EntriesOk(s) && Bounded(s) && Registers(s, key, t)
    ensures EntriesOk(t) && Bounded(t)
  {
  }

  lemma LookKeepsStore(s: System, key: string, now: int)
    requires StoreOk(s)
    ensures var t := Next(s, Get(key, now));
      && StoreOk(t) && Keeps(s.store, t.store)
      && (forall f :: 0 <= f < |s.store.records| ==> t.store.records[f] == s.store.records[f])
      && CallOk(t, t.calls[|s.calls|])
      && (t.calls[|s.calls|].Loading? ==> t.calls[|s.calls|].flight == |s.store.records|)
  {
    var t := Next(s, Get(key, now));
    hide OpenIsRegistered, Bounded;
    if Look(s.store, key, now, s.steps).1.Load? {
      hide FlightsOk, EntriesOk;
      RegisteredFlights(s, key, t);
      RegisteredOpens(s, key, t);
      RegisteredEntries(s, key, t);
      NewLoadIsYoung(s, key);
    } else {
      StoreAlone(s, t);
      LookFinds(s, key, now);
    }
  }

  lemma NewLoadIsYoung(s: System, key: string)
    requires DropsArePast(s)
    ensures s.steps > DroppedAt(s, key)
  {
  }

  /** What a call finds is younger than the last invalidation. */
  lemma LookFinds(s: System, key: string, now: int)
    requires FlightsOk(s) && EntriesOk(s)
    ensures match Look(s.store, key, now, s.steps).1
      case Hit(data, source) => CallOk(s, Done(key, DroppedAt(s, key), Success(data), Some(source)))
      case Join(f) => CallOk(s, Waiting(key, DroppedAt(s, key), f))
      case Load(_) => true
  {
  }

  lemma GetKeepsGood(s: System, key: string, now: int)
    requires Good(s)
    ensures Good(Next(s, Get(key, now)))
  {
    hide FlightsOk, OpenIsRegistered, EntriesOk, Bounded, DropsArePast, Look;
    var t := Next(s, Get(key, now));
    LookKeepsStore(s, key, now);
    hide CallOk;
    forall i | 0 <= i < |t.calls|
      ensures CallOk(t, t.calls[i])
    {
      if i < |s.calls| {
        assert CallOk(s, s.calls[i]);
        LoadIsOpen(s, s.calls[i]);
        CallStaysOk(s, t, s.calls[i]);
      }
    }
    forall i | 0 <= i < |s.calls| && s.calls[i].Loading?
      ensures s.calls[i].flight < |s.store.records|
    {
      assert CallOk(s, s.calls[i]);
      LoadIsOpen(s, s.calls[i]);
    }
  }

  lemma LoadIsOpen(s: System, c: Call)
    requires CallOk(s, c)
    ensures c.Loading? ==> c.flight < |s.store.records| && s.store.records[c.flight].outcome.None?
  {
  }

  lemma LandKeepsStore(s: System, i: nat, outcome: Outcome, expires: int, victim: Option<string>)
    requires StoreOk(s) && i < |s.calls| && CallOk(s, s.calls[i]) && s.calls[i].Loading?
    requires MayLand(s.store, s.calls[i].flight, outcome, victim)
    ensures var t := Next(s, Return(i, outcome, expires, victim));
      && StoreOk(t) && Keeps(s.store, t.store)
      && (forall f :: 0 <= f < |s.store.records| && f != s.calls[i].flight ==> t.store.records[f] == s.store.records[f])
      && t.store.records[s.calls[i].flight] == s.store.records[s.calls[i].flight].(outcome := Some(outcome))
  {
    hide FlightsOk, OpenIsRegistered, EntriesOk, Bounded;
    var f := s.calls[i].flight;
    var t := Next(s, Return(i, outcome, expires, victim));
    LandedRecords(s.store, f, outcome, expires, victim);
    hide Land;
    LandedFlights(s, f, outcome, expires, victim, t);
    LandedOpens(s, f, outcome, expires, victim, t);
    LandedEntries(s, f, outcome, expires, victim, t);
    LandedBound(s, f, outcome, expires, victim, t);
  }

  lemma LandedRecords(c: Store, f: nat, outcome: Outcome, expires: int, victim: Option<string>)
    requires f < |c.records|
    ensures Land(c, f, outcome, expires, victim).records == c.records[f := c.records[f].(outcome := Some(outcome))]
    ensures Land(c, f, outcome, expires, victim).limit == c.limit
  {
  }

  lemma LandedFlights(s: System, f: nat, outcome: Outcome, expires: int, victim: Option<string>, t: System)
    requires FlightsOk(s) && f < |s.store.records| && s.store.records[f].outcome.None?
    requires t.store == Land(s.store, f, outcome, expires, victim) && t.drops == s.drops
    ensures FlightsOk(t)
  {
    forall k | k in t.store.flights
      ensures t.store.flights[k] < |t.store.records| && t.store.flights[k] != f
      ensures t.store.records[t.store.flights[k]] == s.store.records[s.store.flights[k]]
    {
    }
  }

  lemma LandedOpens(s: System, f: nat, outcome: Outcome, expires: int, victim: Option<string>, t: System)
    requires OpenIsRegistered(s) && f < |s.store.records|
    requires t.store == Land(s.store, f, outcome, expires, victim)
    ensures OpenIsRegistered(t)
  {
    forall g | 0 <= g < |t.store.records| && t.store.records[g].outcome.None? && !t.store.records[g].invalidated
      ensures t.store.records[g].key in t.store.flights && t.store.flights[t.store.records[g].key] == g
    {
      assert g != f && t.store.records[g] == s.store.records[g];
    }
  }

  lemma LandedEntries(s: System, f: nat, outcome: Outcome, expires: int, victim: Option<string>, t: System)
    requires FlightsOk(s) && OpenIsRegistered(s) && EntriesOk(s)
    requires f < |s.store.records| && s.store.records[f].outcome.None?
    requires t.store == Land(s.store, f, outcome, expires, victim) && t.drops == s.drops
    ensures EntriesOk(t)
  {
    var key := s.store.records[f].key;
    if Stores(s.store, f, outcome) { assert key in s.store.flights && s.store.flights[key] == f; }
    forall k | k in t.store.entries
      ensures t.store.entries[k].source < |t.store.records|
      ensures var g := t.store.records[t.store.entries[k].source];
        g.key == k && g.outcome == Some(Success(t.store.entries[k].data)) && g.started > DroppedAt(t, k)
    {
      if !(Stores(s.store, f, outcome) && k == key) {
        assert k in s.store.entries && t.store.entries[k] == s.store.entries[k];
      }
    }
  }

  lemma LandedBound(s: System, f: nat, outcome: Outcome, expires: int, victim: Option<string>, t: System)
    requires Bounded(s) && MayLand(s.store, f, outcome, victim)
    requires t.store == Land(s.store, f, outcome, expires, victim)
    ensures Bounded(t)
  {
    if Stores(s.store, f, outcome) {
      var key := s.store.records[f].key;
      var room := if victim.Some? then s.store.entries - {victim.value} else s.store.entries;
      RoomIsMade(s.store, victim, room);
      OneEntryMore(room, key, t.store.entries[key]);
      assert t.store.entries == room[key := t.store.entries[key]];
    }
  }

  lemma OneEntryMore(m: map<string, Entry>, key: string, e: Entry)
    ensures |m[key := e]| <= |m| + 1
  {
    assert m[key := e].Keys == m.Keys + {key};
    assert |m[key := e].Keys| == |m[key := e]| && |m.Keys| == |m|;
  }

  lemma RoomIsMade(c: Store, victim: Option<string>, room: map<string, Entry>)
    requires MayEvict(c, victim) && room == if victim.Some? then c.entries - {victim.value} else c.entries
    requires |c.entries| <= if c.limit >= 1 then c.limit else 1
    ensures |room| + 1 <= if c.limit >= 1 then c.limit else 1
  {
    if victim.Some? { assert room.Keys == c.entries.Keys - {victim.value}; }
    assert |room.Keys| == |room| && |c.entries.Keys| == |c.entries|;
  }

  lemma ReturnKeepsGood(s: System, i: nat, outcome: Outcome, expires: int, victim: Option<string>)
    requires Good(s)
    ensures Good(Next(s, Return(i, outcome, expires, victim)))
  {
    hide FlightsOk, OpenIsRegistered, EntriesOk, Bounded, Land;
    var t := Next(s, Return(i, outcome, expires, victim));
    if i < |s.calls| && s.calls[i].Loading? && MayLand(s.store, s.calls[i].flight, outcome, victim) {
      LandKeepsStore(s, i, outcome, expires, victim);
      forall j | 0 <= j < |t.calls|
        ensures CallOk(t, t.calls[j])
      {
        assert CallOk(s, s.calls[j]);
        if j != i { CallStaysOk(s, t, s.calls[j]); }
      }
    } else {
      StepAlone(s, t);
    }
  }

  /** Counting a step changes nothing. */
  lemma StepAlone(s: System, t: System)
    requires Good(s) && t == s.(steps := s.steps + 1)
    ensures Good(t)
  {
    forall j | 0 <= j < |t.calls|
      ensures CallOk(t, t.calls[j])
    {
      assert CallOk(s, s.calls[j]);
    }
  }

  /** A waiting call that ends, with the outcome it waited for or without. */
  lemma EndingKeepsGood(s: System, i: nat, call: Call, t: System)
    requires Good(s) && i < |s.calls| && s.calls[i].Waiting? && call.Done? && CallOk(s, call)
    requires t == s.(calls := s.calls[i := call], steps := s.steps + 1)
    ensures Good(t)
  {
    hide FlightsOk, OpenIsRegistered, EntriesOk, Bounded;
    assert StoreOk(t) by { StoreAlone(s, t); }
    forall j | 0 <= j < |t.calls|
      ensures CallOk(t, t.calls[j])
    {
      if j != i { assert CallOk(s, s.calls[j]); }
    }
  }

  lemma StoreAlone(s: System, t: System)
    requires StoreOk(s) && t.store == s.store && t.drops == s.drops && t.steps == s.steps + 1
    ensures StoreOk(t)
  {
  }

  lemma DroppedFlights(s: System, key: string)
    requires FlightsOk(s) && DropsArePast(s)
    ensures FlightsOk(Next(s, Invalidate(key))) && DropsArePast(Next(s, Invalidate(key)))
  {
    var t := Next(s, Invalidate(key));
    forall k | k in t.store.flights
      ensures k != key && k in s.store.flights && t.store.flights[k] == s.store.flights[k]
      ensures key in s.store.flights ==> s.store.flights[key] != s.store.flights[k]
    {
    }
  }

  lemma DroppedOpens(s: System, key: string)
    requires FlightsOk(s) && OpenIsRegistered(s)
    ensures OpenIsRegistered(Next(s, Invalidate(key)))
  {
    var t := Next(s, Invalidate(key));
    forall f | 0 <= f < |t.store.records| && t.store.records[f].outcome.None? && !t.store.records[f].invalidated
      ensures t.store.records[f].key in t.store.flights && t.store.flights[t.store.records[f].key] == f
    {
      assert t.store.records[f] == s.store.records[f];
    }
  }

  lemma DropMarksOnly(c: Store, key: string)
    ensures var d := Drop(c, key);
      && d.entries == c.entries - {key} && |d.records| == |c.records|
      && forall f :: 0 <= f < |c.records| ==> d.records[f] == c.records[f].(invalidated := d.records[f].invalidated)
  {
  }

  lemma DroppedEntries(s: System, key: string, t: System)
    requires EntriesOk(s) && t.store.entries == s.store.entries - {key} && |t.store.records| == |s.store.records|
    requires forall f :: 0 <= f < |s.store.records| ==>
      t.store.records[f] == s.store.records[f].(invalidated := t.store.records[f].invalidated)
    requires forall k :: k != key ==> DroppedAt(t, k) == DroppedAt(s, k)
    ensures EntriesOk(t)
  {
    hide DroppedAt;
    forall k | k in t.store.entries
      ensures t.store.entries[k].source < |t.store.records|
      ensures var f := t.store.records[t.store.entries[k].source];
        f.key == k && f.outcome == Some(Success(t.store.entries[k].data)) && f.started > DroppedAt(t, k)
    {
      assert k != key && k in s.store.entries && t.store.entries[k] == s.store.entries[k];
    }
  }

  lemma DropKeepsStore(s: System, key: string)
    requires StoreOk(s)
    ensures var t := Next(s, Invalidate(key));
      && StoreOk(t) && Keeps(s.store, t.store)
      && forall f :: 0 <= f < |s.store.records| ==> t.store.records[f].outcome == s.store.records[f].outcome
  {
    hide FlightsOk, OpenIsRegistered, EntriesOk, DropsArePast;
    DroppedFlights(s, key);
    DroppedOpens(s, key);
    DropShrinks(s.store.entries, key);
    DropMarksOnly(s.store, key);
    hide Drop;
    DroppedEntries(s, key, Next(s, Invalidate(key)));
  }

  lemma DropShrinks(m: map<string, Entry>, key: string)
    ensures |m - {key}| <= |m|
  {
    assert (m - {key}).Keys == m.Keys - {key};
    assert |(m - {key}).Keys| == |m - {key}| && |m.Keys| == |m|;
  }

  lemma InvalidateKeepsGood(s: System, key: string)
    requires Good(s)
    ensures Good(Next(s, Invalidate(key)))
  {
    hide FlightsOk, OpenIsRegistered, EntriesOk, Bounded, Drop, DropsArePast;
    var t := Next(s, Invalidate(key));
    DropKeepsStore(s, key);
    forall j | 0 <= j < |t.calls|
      ensures CallOk(t, t.calls[j])
    {
      assert CallOk(s, s.calls[j]);
      CallStaysOk(s, t, s.calls[j]);
    }
  }

  lemma StepKeepsGood(s: System, step: Step)
    requires Good(s)
    ensures Good(Next(s, step))
  {
    hide Good, Next;
    match step
    case Get(key, now) => GetKeepsGood(s, key, now);
    case Return(i, outcome, expires, victim) => ReturnKeepsGood(s, i, outcome, expires, victim);
    case Invalidate(key) => InvalidateKeepsGood(s, key);
    case Wake(i) => WakingKeepsGood(s, i);
    case GiveUp(i) => GivingUpKeepsGood(s, i);
  }

  /** The invariant of every run. */
  lemma {:induction false} RunIsGood(limit: nat, steps: seq<Step>)
    ensures Good(Run(limit, steps)) && Run(limit, steps).store.limit == limit && Run(limit, steps).steps == |steps|
  {
    if steps != [] {
      hide Good, Next;
      RunIsGood(limit, steps[..|steps| - 1]);
      StepKeepsGood(Run(limit, steps[..|steps| - 1]), steps[|steps| - 1]);
      LimitStays(Run(limit, steps[..|steps| - 1]), steps[|steps| - 1]);
    } else {
      NothingIsGood(limit);
    }
  }

  lemma NothingIsGood(limit: nat)
    ensures Good(System(Store(map[], map[], [], limit), [], map[], 0))
  {
  }

  lemma LimitStays(s: System, step: Step)
    ensures Next(s, step).store.limit == s.store.limit && Next(s, step).steps == s.steps + 1
  {
  }

  lemma WakingKeepsGood(s: System, i: nat)
    requires Good(s)
    ensures Good(Next(s, Wake(i)))
  {
    var t := Next(s, Wake(i));
    if i < |s.calls| && s.calls[i].Waiting? && s.calls[i].flight < |s.store.records|
      && s.store.records[s.calls[i].flight].outcome.Some? {
      assert CallOk(s, s.calls[i]);
      hide Good;
      EndingKeepsGood(s, i, t.calls[i], t);
    } else {
      hide Good;
      StepAlone(s, t);
    }
  }

  lemma GivingUpKeepsGood(s: System, i: nat)
    requires Good(s)
    ensures Good(Next(s, GiveUp(i)))
  {
    var t := Next(s, GiveUp(i));
    hide Good;
    if i < |s.calls| && s.calls[i].Waiting? {
      EndingKeepsGood(s, i, t.calls[i], t);
    } else {
      StepAlone(s, t);
    }
  }

  // ---- What every run guarantees ----

  /** At most one load of a key is under way that has not been invalidated. */
  lemma SingleFlight(limit: nat, steps: seq<Step>, f: nat, g: nat)
    requires var c := Run(limit, steps).store;
      && f < |c.records| && g < |c.records| && c.records[f].key == c.records[g].key
      && c.records[f].outcome.None? && c.records[g].outcome.None? && !c.records[f].invalidated
      && !c.records[g].invalidated
    ensures f == g
  {
    RunIsGood(limit, steps);
  }

  /** Nothing is taken back: outcomes and answers are final, calls keep their keys, invalidations stay in the past. */
  ghost predicate Extends(t: System, s: System) {
    && Keeps(s.store, t.store) && |s.calls| <= |t.calls|
    && (forall i :: 0 <= i < |s.calls| ==> t.calls[i].key == s.calls[i].key && t.calls[i].floor == s.calls[i].floor)
    && (forall i :: 0 <= i < |s.calls| && s.calls[i].Done? ==> t.calls[i] == s.calls[i])
    && (forall key :: DroppedAt(t, key) >= DroppedAt(s, key))
  }

  lemma ExtendsTwice(s: System, t: System, u: System)
    requires Extends(t, s) && Extends(u, t)
    ensures Extends(u, s)
  {
  }

  lemma ExtendsItself(s: System)
    ensures Extends(s, s)
  {
  }

  lemma StepExtends(s: System, step: Step)
    requires Good(s)
    ensures Extends(Next(s, step), s)
  {
    hide FlightsOk, OpenIsRegistered, EntriesOk, Bounded;
    match step
    case Get(key, now) => LookKeepsStore(s, key, now);
    case Return(i, outcome, expires, victim) =>
      if i < |s.calls| && s.calls[i].Loading? && MayLand(s.store, s.calls[i].flight, outcome, victim) {
        assert CallOk(s, s.calls[i]);
        LandKeepsStore(s, i, outcome, expires, victim);
      }
    case Invalidate(key) =>
      DropKeepsStore(s, key);
    case Wake(i) =>
    case GiveUp(i) =>
  }

  lemma {:induction false} RunsExtend(limit: nat, steps: seq<Step>, n: nat)
    requires n <= |steps|
    ensures Extends(Run(limit, steps), Run(limit, steps[..n]))
    decreases |steps|
  {
    hide Extends, Good, Next;
    if n == |steps| {
      assert steps[..n] == steps;
      ExtendsItself(Run(limit, steps));
    } else {
      var m := |steps| - 1;
      assert steps[..m][..n] == steps[..n];
      RunsExtend(limit, steps[..m], n);
      RunIsGood(limit, steps[..m]);
      StepExtends(Run(limit, steps[..m]), steps[m]);
      ExtendsTwice(Run(limit, steps[..n]), Run(limit, steps[..m]), Run(limit, steps));
    }
  }

  /** The call that a `Get` at step `j` makes. */
  function CallAt(limit: nat, steps: seq<Step>, j: nat): nat
    requires j < |steps|
  {
    |Run(limit, steps[..j]).calls|
  }

  /**
   Freshness. A call that begins after an invalidation of its key never returns data of a load that began
   before it: whatever it returns is the outcome of a load of that key that began later.
   */
  lemma NoStaleReads(limit: nat, steps: seq<Step>, key: string, i: nat, j: nat, now: int)
    requires i < j < |steps| && steps[i] == Invalidate(key) && steps[j] == Get(key, now)
    ensures var s := Run(limit, steps);
      && CallAt(limit, steps, j) < |s.calls|
      && var call := s.calls[CallAt(limit, steps, j)];
         call.key == key &&
         (call.Done? && call.outcome.Success? ==>
           && call.source.Some? && call.source.value < |s.store.records|
           && var f := s.store.records[call.source.value];
              f.key == key && f.outcome == Some(call.outcome) && f.started > i)
  {
    hide Run, Next, Good, Extends, CallOk;
    var n, s := CallAt(limit, steps, j), Run(limit, steps);
    CallIsYoung(limit, steps, key, i, j, now);
    RunsExtend(limit, steps, j + 1);
    LaterCalls(Run(limit, steps[..j + 1]), s, n);
    RunIsGood(limit, steps);
    AnswersAreOk(s, n);
    AnswerIsFresh(s, s.calls[n], i);
  }

  lemma CallIsYoung(limit: nat, steps: seq<Step>, key: string, i: nat, j: nat, now: int)
    requires i < j < |steps| && steps[i] == Invalidate(key) && steps[j] == Get(key, now)
    ensures var n, begun := CallAt(limit, steps, j), Run(limit, steps[..j + 1]);
      n < |begun.calls| && begun.calls[n].key == key && begun.calls[n].floor >= i
  {
    hide Run, Next, Good, Extends, DroppedAt;
    var before := Run(limit, steps[..j]);
    RunStep(limit, steps, i);
    RunStep(limit, steps, j);
    assert steps[..j][..i + 1] == steps[..i + 1];
    RunIsGood(limit, steps[..i]);
    InvalidationIsSeen(Run(limit, steps[..i]), key);
    RunsExtend(limit, steps[..j], i + 1);
    LaterDrops(Run(limit, steps[..i + 1]), before, key);
    CallBegins(before, key, now);
  }

  lemma AnswerIsFresh(s: System, call: Call, i: int)
    requires CallOk(s, call) && call.floor >= i
    ensures call.Done? && call.outcome.Success? ==>
      && call.source.Some? && call.source.value < |s.store.records|
      && var f := s.store.records[call.source.value];
         f.key == call.key && f.outcome == Some(call.outcome) && f.started > i
  {
  }

  lemma RunStep(limit: nat, steps: seq<Step>, i: nat)
    requires i < |steps|
    ensures Run(limit, steps[..i + 1]) == Next(Run(limit, steps[..i]), steps[i])
  {
    hide Next;
    assert steps[..i + 1][..i] == steps[..i];
  }

  lemma InvalidationIsSeen(s: System, key: string)
    ensures DroppedAt(Next(s, Invalidate(key)), key) == s.steps
  {
  }

  lemma LaterDrops(s: System, t: System, key: string)
    requires Extends(t, s)
    ensures DroppedAt(t, key) >= DroppedAt(s, key)
  {
  }

  lemma CallBegins(s: System, key: string, now: int)
    ensures var t := Next(s, Get(key, now));
      |s.calls| < |t.calls| && t.calls[|s.calls|].key == key && t.calls[|s.calls|].floor == DroppedAt(s, key)
  {
  }

  lemma LaterCalls(s: System, t: System, n: nat)
    requires Extends(t, s) && n < |s.calls|
    ensures n < |t.calls| && t.calls[n].key == s.calls[n].key && t.calls[n].floor == s.calls[n].floor
  {
  }

  lemma AnswersAreOk(s: System, n: nat)
    requires Good(s) && n < |s.calls|
    ensures CallOk(s, s.calls[n])
  {
  }

  /** What is stored is the answer of a load that succeeded. */
  lemma FailuresAreNeverStored(limit: nat, steps: seq<Step>, key: string)
    requires key in Run(limit, steps).store.entries
    ensures var c := Run(limit, steps).store;
      && c.entries[key].source < |c.records|
      && c.records[c.entries[key].source].outcome == Some(Success(c.entries[key].data))
      && c.records[c.entries[key].source].key == key
  {
    RunIsGood(limit, steps);
  }

  /** The store stays within its limit in every run exactly when the limit is at least one. */
  lemma LimitHoldsExactlyWhen(limit: nat)
    ensures (forall steps :: |Run(limit, steps).store.entries| <= limit) <==> limit >= 1
  {
    hide Good, Run;
    if limit >= 1 {
      forall steps
        ensures |Run(limit, steps).store.entries| <= limit
      {
        RunIsGood(limit, steps);
        GoodIsBounded(Run(limit, steps));
      }
    } else {
      var steps := OneEntryDespiteLimit();
      assert limit == 0 && |Run(limit, steps).store.entries| > limit;
    }
  }

  lemma GoodIsBounded(s: System)
    requires Good(s)
    ensures |s.store.entries| <= if s.store.limit >= 1 then s.store.limit else 1
  {
  }

  lemma OneEntryDespiteLimit() returns (steps: seq<Step>)
    ensures |Run(0, steps).store.entries| == 1
  {
    var get, back := Get("k", 0), Return(0, Success("d"), 1, None);
    steps := [get, back];
    assert steps[..1] == [get] && [get][..0] == [];
    var empty := System(Store(map[], map[], [], 0), [], map[], 0);
    assert Run(0, []) == empty;
    var s := Next(empty, get);
    assert Run(0, [get]) == s;
    assert s.store == Store(map[], map["k" := 0], [Flight("k", 0, None, false)], 0) && s.calls == [Loading("k", -1, 0)];
    assert Land(s.store, 0, Success("d"), 1, None).entries == map["k" := Entry("d", 1, 0)];
    assert Run(0, steps) == Next(s, back);
  }
}
