/** A cache of function results on disk, shared by threads: each looks up under a lock,
    computes without it, then looks again under the lock before it writes. */
module DiskCaching {
  import opened Messages

  /** A call of one of the functions that share a directory; `name` tells them apart, which
      their `__name__` need not. */
  datatype Call = Call(name: string, arguments: string)

  datatype Entry = Entry(value: Json, created: real)

  type Disk = map<string, Entry>

  /** The wrapped function, which may throw; the key of each call; and the time to live,
      0 for no expiry. */
  datatype Config = Config(compute: Call -> Result<Json>, key: Call -> string, ttl: int)

  predicate Expired(entry: Entry, ttl: int, now: real) {
    ttl != 0 && now - entry.created > ttl as real
  }

  predicate IsFresh(disk: Disk, key: string, ttl: int, now: real) {
    key in disk && !Expired(disk[key], ttl, now)
  }

  /** The second locked section: a fresh entry is left alone. */
  function Stored(disk: Disk, key: string, ttl: int, value: Json, now: real): Disk {
    if IsFresh(disk, key, ttl, now) then disk else disk[key := Entry(value, now)]
  }

  /** A call that shares its key with one that has a result has the same result. Injective
      keys are faithful whatever the function. */
  ghost predicate Faithful(config: Config) {
    forall a: Call, b: Call {:trigger config.compute(a), config.compute(b)} ::
      config.key(a) == config.key(b) && config.compute(a).Ok? ==> config.compute(a) == config.compute(b)
  }

  /** Whatever is on disk for a call is what the call returns. */
  ghost predicate Agrees(config: Config, disk: Disk) {
    forall call: Call {:trigger config.compute(call)} ::
      config.key(call) in disk ==> config.compute(call) == Ok(disk[config.key(call)].value)
  }

  lemma StoredAgrees(config: Config, disk: Disk, call: Call, value: Json, now: real)
    requires Faithful(config) && Agrees(config, disk) && config.compute(call) == Ok(value)
    ensures Agrees(config, Stored(disk, config.key(call), config.ttl, value, now))
  {
    var disk' := Stored(disk, config.key(call), config.ttl, value, now);
    forall other: Call | config.key(other) in disk'
      ensures config.compute(other) == Ok(disk'[config.key(other)].value)
    {
      assert config.compute(other) == config.compute(other);
    }
  }

  class DiskCache {
    const config: Config
    var disk: Disk

    constructor (config: Config)
      ensures this.config == config && disk == map[]
    {
      this.config := config;
      this.disk := map[];
    }

    method LoadCache(key: string) returns (entry: Option<Entry>)
      ensures entry == if key in disk then Some(disk[key]) else None
    {
      entry := if key in disk then Some(disk[key]) else None;
    }

    method WriteCache(key: string, entry: Entry)
      modifies this
      ensures disk == old(disk)[key := entry]
    {
      disk := disk[key := entry];
    }

    method Clear()
      modifies this
      ensures disk == map[]
    {
      disk := map[];
    }

    /** The first locked section. */
    method LookUp(call: Call, now: real) returns (hit: Option<Json>)
      ensures hit == if IsFresh(disk, config.key(call), config.ttl, now) then Some(disk[config.key(call)].value)
        else None
      ensures hit.Some? <==>
        var key := config.key(call);
        key in disk && (config.ttl == 0 || now - disk[key].created <= config.ttl as real)
    {
      var entry := LoadCache(config.key(call));
      if entry.Some? && !Expired(entry.value, config.ttl, now) {
        return Some(entry.value.value);
      }
      hit := None;
    }

    /** The second locked section: another thread may have written meanwhile. */
    method Store(call: Call, result: Json, now: real)
      modifies this
      ensures disk == Stored(old(disk), config.key(call), config.ttl, result, now)
      ensures var (key, was) := (config.key(call), old(disk));
              if key in was && (config.ttl == 0 || now - was[key].created <= config.ttl as real) then disk == was
              else disk == was[key := Entry(result, now)]
    {
      var key := config.key(call);
      var entry := LoadCache(key);
      if entry.None? || Expired(entry.value, config.ttl, now) {
        WriteCache(key, Entry(result, now));
      }
    }

    /** The whole wrapper, undisturbed: it answers what the function answers, and what it
        leaves on disk agrees with the function if what it found did. */
    method Wrapper(call: Call, before: real, after: real) returns (result: Result<Json>)
      requires Faithful(config) && Agrees(config, disk)
      modifies this
      ensures Agrees(config, disk) && result == config.compute(call)
    {
      var hit := LookUp(call, before);
      if hit.Some? {
        assert config.compute(call) == Ok(hit.value);
        return Ok(hit.value);
      }
      result := config.compute(call);
      if result.Threw? {
        return;
      }
      Store(call, result.value, after);
      StoredAgrees(config, old(disk), call, result.value, after);
    }
  }

  // ----- Threads

  datatype Thread =
    | Ready
    | Entering(call: Call)
    | Computing(call: Call)
    | Storing(call: Call, result: Json)
    | Returned(call: Call, value: Json)
    | Raised(call: Call, reason: string)

  datatype World = World(disk: Disk, now: real, threads: seq<Thread>)

  /** Each move is one locked section or one stretch outside the lock, of one thread. */
  datatype Move =
    | Starts(thread: nat, call: Call)
    | LooksUp(thread: nat)
    | Computes(thread: nat)
    | Stores(thread: nat)
    | Clears
    | Ticks(time: real)

  predicate Possible(w: World, move: Move) {
    match move
    case Starts(t, _) => t < |w.threads| && (w.threads[t].Ready? || w.threads[t].Returned? || w.threads[t].Raised?)
    case LooksUp(t) => t < |w.threads| && w.threads[t].Entering?
    case Computes(t) => t < |w.threads| && w.threads[t].Computing?
    case Stores(t) => t < |w.threads| && w.threads[t].Storing?
    case Clears => true
    case Ticks(time) => time >= 0.0
  }

  function Set(w: World, t: nat, thread: Thread): World
    requires t < |w.threads|
  {
    w.(threads := w.threads[t := thread])
  }

  function Apply(config: Config, w: World, move: Move): World
    requires Possible(w, move)
  {
    match move
    case Starts(t, call) => Set(w, t, Entering(call))
    case LooksUp(t) =>
      var call := w.threads[t].call;
      if IsFresh(w.disk, config.key(call), config.ttl, w.now)
        then Set(w, t, Returned(call, w.disk[config.key(call)].value))
      else Set(w, t, Computing(call))
    case Computes(t) =>
      var call := w.threads[t].call;
      (match config.compute(call)
       case Ok(result) => Set(w, t, Storing(call, result))
       case Threw(reason) => Set(w, t, Raised(call, reason)))
    case Stores(t) =>
      var Storing(call, result) := w.threads[t];
      Set(w, t, Returned(call, result)).(disk := Stored(w.disk, config.key(call), config.ttl, result, w.now))
    case Clears => w.(disk := map[])
    case Ticks(time) => w.(now := w.now + time)
  }

  predicate History(config: Config, w: World, moves: seq<Move>, w': World)
    decreases |moves|
  {
    if moves == [] then w == w'
    else Possible(w, moves[0]) && History(config, Apply(config, w, moves[0]), moves[1..], w')
  }

  // ----- Agreement

  predicate ThreadAgrees(config: Config, thread: Thread) {
    match thread
    case Storing(call, result) => config.compute(call) == Ok(result)
    case Returned(call, value) => config.compute(call) == Ok(value)
    case Raised(call, reason) => config.compute(call) == Threw(reason)
    case _ => true
  }

  /** Every value stored, about to be stored or returned is the direct call's. */
  ghost predicate AllAgree(config: Config, w: World) {
    Agrees(config, w.disk) && forall t | 0 <= t < |w.threads| :: ThreadAgrees(config, w.threads[t])
  }

  lemma MoveAgrees(config: Config, w: World, move: Move)
    requires Faithful(config) && AllAgree(config, w) && Possible(w, move)
    ensures AllAgree(config, Apply(config, w, move))
  {
    match move
    case LooksUp(t) =>
      assert config.compute(w.threads[t].call) == config.compute(w.threads[t].call);
    case Stores(t) =>
      assert ThreadAgrees(config, w.threads[t]);
      StoredAgrees(config, w.disk, w.threads[t].call, w.threads[t].result, w.now);
    case _ =>
  }

  /** Under every interleaving of any number of threads with clears and clock ticks, every
      returned and every stored value equals the direct call, and a call raises what the
      function raises. */
  lemma {:induction false} CacheAgrees(config: Config, w: World, moves: seq<Move>, w': World)
    requires Faithful(config) && AllAgree(config, w) && History(config, w, moves, w')
    ensures AllAgree(config, w')
    decreases |moves|
  {
    if moves != [] {
      MoveAgrees(config, w, moves[0]);
      CacheAgrees(config, Apply(config, w, moves[0]), moves[1..], w');
    }
  }

  function Start(threads: nat, now: real): World {
    World(map[], now, seq(threads, _ => Ready))
  }

  /** As soon as two calls share a key but not a result, and entries live at all, some
      history answers one with the other. */
  lemma FaithfulKeysNeeded(config: Config, a: Call, b: Call)
    requires config.ttl >= 0 && config.key(a) == config.key(b)
    requires config.compute(a).Ok? && config.compute(a) != config.compute(b)
    ensures exists moves, w' :: History(config, Start(1, 0.0), moves, w') && !AllAgree(config, w')
  {
    var x := config.compute(a).value;
    var w0 := Start(1, 0.0);
    var w1 := Apply(config, w0, Starts(0, a));
    var w2 := Apply(config, w1, LooksUp(0));
    var w3 := Apply(config, w2, Computes(0));
    var w4 := Apply(config, w3, Stores(0));
    var w5 := Apply(config, w4, Starts(0, b));
    var w6 := Apply(config, w5, LooksUp(0));
    assert w6.threads[0] == Returned(b, x);
    assert !ThreadAgrees(config, w6.threads[0]);
    HistoryStep(config, w5, LooksUp(0), [], w6);
    HistoryStep(config, w4, Starts(0, b), [LooksUp(0)], w6);
    HistoryStep(config, w3, Stores(0), [Starts(0, b), LooksUp(0)], w6);
    HistoryStep(config, w2, Computes(0), [Stores(0), Starts(0, b), LooksUp(0)], w6);
    HistoryStep(config, w1, LooksUp(0), [Computes(0), Stores(0), Starts(0, b), LooksUp(0)], w6);
    HistoryStep(config, w0, Starts(0, a), [LooksUp(0), Computes(0), Stores(0), Starts(0, b), LooksUp(0)], w6);
  }

  ghost predicate AlwaysAgrees(config: Config) {
    forall threads: nat, now: real, moves, w' | History(config, Start(threads, now), moves, w') :: AllAgree(config, w')
  }

  /** When entries live at all, the cache agrees with the function in every history exactly
      if its keys are faithful. */
  lemma AgreementExact(config: Config)
    requires config.ttl >= 0
    ensures AlwaysAgrees(config) <==> Faithful(config)
  {
    if Faithful(config) {
      forall threads: nat, now: real, moves, w' | History(config, Start(threads, now), moves, w')
        ensures AllAgree(config, w')
      {
        CacheAgrees(config, Start(threads, now), moves, w');
      }
    } else {
      var a: Call, b: Call :|
        config.key(a) == config.key(b) && config.compute(a).Ok? && config.compute(a) != config.compute(b);
      FaithfulKeysNeeded(config, a, b);
    }
  }

  ghost predicate Injective(key: Call -> string) {
    forall a: Call, b: Call {:trigger key(a), key(b)} :: key(a) == key(b) ==> a == b
  }

  /** With injective keys the cache agrees with every function, whatever the time to live. */
  lemma InjectiveKeysAgree(config: Config)
    requires Injective(config.key)
    ensures AlwaysAgrees(config)
  {
    assert Faithful(config);
    forall threads: nat, now: real, moves, w' | History(config, Start(threads, now), moves, w')
      ensures AllAgree(config, w')
    {
      CacheAgrees(config, Start(threads, now), moves, w');
    }
  }

  /** Functions that answer who they are, and all have the `__name__` `load`. */
  const NAMESAKES := Config((call: Call) => Ok(call.name), (call: Call) => "load|" + call.arguments, 0)

  /** For instance two functions of one `__name__` in one directory: their keys tell only the
      arguments apart, so one is answered with the result of the other. */
  lemma SameNameExample()
    ensures !AlwaysAgrees(NAMESAKES)
  {
    var a, b := Call.Call("a.load", "()"), Call.Call("b.load", "()");
    assert a.name[0] != b.name[0];
    assert NAMESAKES.key(a) == NAMESAKES.key(b) && NAMESAKES.compute(a) != NAMESAKES.compute(b);
    FaithfulKeysNeeded(NAMESAKES, a, b);
  }

  lemma HistoryStep(config: Config, w: World, move: Move, moves: seq<Move>, w': World)
    requires Possible(w, move) && History(config, Apply(config, w, move), moves, w')
    ensures History(config, w, [move] + moves, w')
  {
    assert ([move] + moves)[1..] == moves;
  }

  // ----- Fresh entries stay

  predicate NeverClears(moves: seq<Move>) {
    forall i | 0 <= i < |moves| :: !moves[i].Clears?
  }

  lemma {:induction false} ClockRuns(config: Config, w: World, moves: seq<Move>, w': World)
    requires History(config, w, moves, w')
    ensures w.now <= w'.now
    decreases |moves|
  {
    if moves != [] {
      ClockRuns(config, Apply(config, w, moves[0]), moves[1..], w');
    }
  }

  /** Unless the cache is cleared, an entry is overwritten only after it has expired: as
      long as it is fresh it is the very entry on disk, whatever other threads computed. */
  lemma {:induction false} FreshStays(config: Config, w: World, moves: seq<Move>, w': World, key: string)
    requires History(config, w, moves, w') && NeverClears(moves)
    requires key in w.disk && !Expired(w.disk[key], config.ttl, w'.now)
    ensures key in w'.disk && w'.disk[key] == w.disk[key]
    decreases |moves|
  {
    if moves != [] {
      var next := Apply(config, w, moves[0]);
      ClockRuns(config, w, moves, w');
      ClockRuns(config, next, moves[1..], w');
      assert !Expired(w.disk[key], config.ttl, w.now);
      FreshStays(config, next, moves[1..], w', key);
    }
  }

  /** A thread is answered from the disk exactly by an entry no older than the time to live, or
      of any age if there is none; otherwise it goes on to call the function. */
  lemma StaleIsNotAnswered(config: Config, w: World, t: nat)
    requires Possible(w, LooksUp(t))
    ensures var call := w.threads[t].call;
            var key := config.key(call);
            Apply(config, w, LooksUp(t)).threads[t] ==
              if key in w.disk && (config.ttl == 0 || w.now - w.disk[key].created <= config.ttl as real)
              then Returned(call, w.disk[key].value) else Computing(call)
  {
  }

  /** What a thread computed goes to the disk exactly if there is no entry or a stale one. */
  lemma StaleIsReplaced(config: Config, w: World, t: nat)
    requires Possible(w, Stores(t))
    ensures var Storing(call, result) := w.threads[t];
            var (key, next) := (config.key(call), Apply(config, w, Stores(t)));
            && next.threads[t] == Returned(call, result)
            && next.disk ==
                 if key in w.disk && (config.ttl == 0 || w.now - w.disk[key].created <= config.ttl as real) then w.disk
                 else w.disk[key := Entry(result, w.now)]
  {
  }

  /** A clear forgets every entry and no thread: whoever looks up next calls the function. */
  lemma ClearForgets(config: Config, w: World, t: nat)
    requires Possible(w, LooksUp(t))
    ensures var cleared := Apply(config, w, Clears);
            && cleared.disk == map[] && cleared.threads == w.threads && cleared.now == w.now
            && Apply(config, cleared, LooksUp(t)).threads[t] == Computing(w.threads[t].call)
  {
  }

  /** With no expiry the first value stored for a key is there until the cache is cleared. */
  lemma ForeverStays(config: Config, w: World, moves: seq<Move>, w': World, key: string)
    requires config.ttl == 0 && History(config, w, moves, w') && NeverClears(moves)
    requires key in w.disk
    ensures key in w'.disk && w'.disk[key] == w.disk[key]
  {
    FreshStays(config, w, moves, w', key);
  }
}
