/** The values of src/memcached.c over whole runs: what each step of StoreRuns does to the value a client reads, and
    that increments of one key add up whatever else happens around them. */
module StoreValues {
  import opened Basics
  import opened Addresses
  import opened DecimalText
  import opened StoreRuns

  /** Only a store command, an incr or decr, or an unlink changes a value, and only under its own key; reads, drops, new
      ids and rescues by the page mover change none. */
  ghost predicate ValueAfter(s: State, e: Event, s': State, k: Key) {
    match e
    case Store(_, key, _, _, _, _) => k != key || !Accepts(s, e) ==> ValueOf(s', k) == ValueOf(s, k)
    case Delta(key, _, _, _, _, _, _) => k != key || !CanCount(s, e) ==> ValueOf(s', k) == ValueOf(s, k)
    case Unlink(p) =>
      ValueOf(s', k) == if k in s.index && s.index[k] == p then None else ValueOf(s, k)
    case NextCas => ValueOf(s', k) == ValueOf(s, k) && s'.casId == s.casId + 1
    case _ => ValueOf(s', k) == ValueOf(s, k)
  }

  lemma ValueFlow(s: State, e: Event, k: Key)
    requires Inv(s) && Enabled(s, e)
    ensures ValueAfter(s, e, Next(s, e), k)
  {
    assert k in s.index ==> KeyOK(s, k);
    match e {
      case Store(_, _, _, _, _, _) =>
        StoreFlow(s, e);
        SameCurrent(s, Next(s, e), e.key, k);
      case Delta(_, _, _, _, _, _, _) =>
        DeltaFlow(s, e);
        SameCurrent(s, Next(s, e), e.key, k);
      case Rescue(key, p) =>
        assert KeyOK(s, key);
        LinkPuts(s, p, key, s.items[s.index[key]].value);
        SameCurrent(s, Next(s, e), key, k);
      case _ =>
    }
  }

  lemma SameCurrent(s: State, s': State, key: Key, k: Key)
    ensures OnlyKey(s, s', key) && k != key ==> ValueOf(s', k) == ValueOf(s, k)
  {
    assert OnlyKey(s, s', key) && k != key ==> Current(s', k) == Current(s, k);
  }

  /** The amount that the step adds to the number under k. */
  ghost function Added(s: State, e: Event, k: Key): nat {
    if e.Delta? && e.key == k && e.incr && CanCount(s, e) then e.amount else 0
  }

  /** The step leaves the number under k to increments, each of which reads what is there. */
  ghost predicate Counting(s: State, e: Event, k: Key) {
    && (e.Delta? && e.key == k ==> e.incr && ValueOf(s, k).Some? && e.parsed == ParsedOf(ValueOf(s, k).value))
    && (e.Store? && e.key == k ==> !Accepts(s, e))
    && (e.Unlink? && k in s.index ==> s.index[k] != e.p)
  }

  function ParsedOf(v: Value): Option<nat> {
    match ReadNumber(v)
    case Some(n) => if 0 <= n then Some(n) else None
    case None => None
  }

  /** A run of such steps, in which `total` is added to the number under k. */
  ghost predicate Counts(s: State, es: seq<Event>, s': State, k: Key, total: int)
    decreases es
  {
    if es == [] then s' == s && total == 0
    else Enabled(s, es[0]) && Counting(s, es[0], k) &&
         Counts(Next(s, es[0]), es[1..], s', k, total - Added(s, es[0], k))
  }

  /** The value under k reads as n, modulo 2 to the 64th. */
  ghost predicate Reads(s: State, k: Key, n: nat) {
    ValueOf(s, k).Some? && ReadNumber(ValueOf(s, k).value) == Some(n % 0x1_0000_0000_0000_0000)
  }

  lemma ReadsOn(s: State, e: Event, k: Key, n: nat)
    requires Inv(s) && Enabled(s, e) && Counting(s, e, k) && Reads(s, k, n)
    ensures Reads(Next(s, e), k, n + Added(s, e, k))
  {
    ValueFlow(s, e, k);
    if e.Delta? && e.key == k {
      DeltaFlow(s, e);
      WrapTwice(n, Added(s, e, k));
    }
  }

  lemma WrapTwice(n: nat, a: nat)
    ensures (n % TWO64 + a) % TWO64 == (n + a) % TWO64
  {}

  lemma Head(s: State, es: seq<Event>, s': State, k: Key, goal: int, n: nat) returns (t: State, m: nat)
    requires Inv(s) && Counts(s, es, s', k, goal - n) && es != [] && Reads(s, k, n)
    ensures Inv(t) && Counts(t, es[1..], s', k, goal - m) && Reads(t, k, m) && n <= m
  {
    t, m := Next(s, es[0]), n + Added(s, es[0], k);
    StepKeeps(s, es[0]);
    ReadsOn(s, es[0], k, n);
    assert goal - n - Added(s, es[0], k) == goal - m;
  }

  lemma {:induction false} ReachesGoal(s: State, es: seq<Event>, s': State, k: Key, goal: int, n: nat)
    requires Inv(s) && Counts(s, es, s', k, goal - n) && Reads(s, k, n)
    ensures goal >= n && Reads(s', k, goal)
    decreases es
  {
    if es != [] {
      var t, m := Head(s, es, s', k, goal, n);
      ReachesGoal(t, es[1..], s', k, goal, m);
    }
  }

  /** However reads, drops, rescues, and commands on other keys come between them, and whether they are done in place or
      by replacing the item: no increment is lost, and none counts twice. */
  lemma IncrementsAddUp(s: State, es: seq<Event>, s': State, k: Key, total: int, n: nat)
    requires Inv(s) && Counts(s, es, s', k, total) && Reads(s, k, n)
    ensures total >= 0 && Reads(s', k, n + total)
  {
    ReachesGoal(s, es, s', k, n + total, n);
  }
}
