/** The store commands of src/memcached.c and their compare-and-swap ids over whole runs. A step is what a worker does
    under one hold of an item lock; a read takes a reference in one step and prints value and id in a later one. */
module StoreRuns {
  import opened Basics
  import opened Addresses
  import opened DecimalText

  datatype Item = Item(key: Key, value: Value, cas: nat)

  /** items is the memory of items, index the hash table, casId the counter behind get_cas_id, and held the
      references kept across steps. Memory that is neither linked nor held may be used again. */
  datatype State = State(items: map<Ptr, Item>, index: map<Key, Ptr>, casId: nat, held: multiset<Ptr>)

  /** A server that has just started. */
  const EMPTY := State(map[], map[], 0, multiset{})

  datatype Command = Add | Set | Replace | Append | Prepend | Cas
  datatype Reply = Stored | NotStored | Exists | NotFound | NonNumeric | CasMismatch | OutOfMemory | Ok

  /** room says whether a second allocation succeeds; parsed is the number safe_strtoull reads off the item, if any. */
  datatype Event =
    | Store(comm: Command, key: Key, value: Value, reqCas: nat, p: Ptr, room: bool)
    | Delta(key: Key, incr: bool, amount: nat, reqCas: nat, parsed: Option<nat>, p: Ptr, room: bool)
    | Unlink(p: Ptr) | Rescue(key: Key, p: Ptr) | NextCas | Get(key: Key) | Drop(p: Ptr)

  /** p can be given out: nobody holds it and it is not linked. */
  ghost predicate Unused(s: State, p: Ptr) {
    p !in s.held && forall k | k in s.index :: s.index[k] != p
  }

  predicate Linked(s: State, p: Ptr) {
    p in s.items && s.items[p].key in s.index && s.index[s.items[p].key] == p
  }

  /** The reference count of an item: one for its link and one for every holder. */
  function RefCount(s: State, p: Ptr): int { Bit(Linked(s, p)) + s.held[p] }

  function Current(s: State, k: Key): Option<Item> {
    if k in s.index && s.index[k] in s.items then Some(s.items[s.index[k]]) else None
  }

  ghost predicate KeyOK(s: State, k: Key)
    requires k in s.index
  {
    s.index[k] in s.items && s.items[s.index[k]].key == k && 0 < s.items[s.index[k]].cas <= s.casId
  }

  /** Different keys, different ids. */
  ghost predicate Apart(s: State, k: Key, l: Key)
    requires k in s.index && l in s.index
  {
    k == l || (s.index[k] in s.items && s.index[l] in s.items && s.items[s.index[k]].cas != s.items[s.index[l]].cas)
  }

  ghost predicate Inv(s: State) {
    && (forall k {:trigger KeyOK(s, k)} | k in s.index :: KeyOK(s, k))
    && (forall k, l {:trigger Apart(s, k, l)} | k in s.index && l in s.index :: Apart(s, k, l))
    && (forall p | p in s.held :: p in s.items)
    && (forall p | p in s.items :: s.items[p].cas <= s.casId)
  }

  /** do_item_link of a new item at p, in place of whatever was under its key: it gets the next id. */
  function Link(s: State, p: Ptr, k: Key, v: Value): State {
    State(s.items[p := Item(k, v, s.casId + 1)], s.index[k := p], s.casId + 1, s.held)
  }

  /** Addition wraps at 64 bits, subtraction stops at zero. */
  function Adjusted(n: nat, incr: bool, amount: nat): nat {
    if incr then (n + amount) % TWO64 else if amount > n then 0 else n - amount
  }

  /** do_store_item. */
  function Stores(s: State, e: Event): (State, Reply)
    requires e.Store?
  {
    match Current(s, e.key)
    case None =>
      if e.comm == Add || e.comm == Set then (Link(s, e.p, e.key, e.value), Stored)
      else if e.comm == Cas then (s, NotFound)
      else (s, NotStored)
    case Some(it) =>
      match e.comm
      case Add => (s, NotStored)
      case Set => (Link(s, e.p, e.key, e.value), Stored)
      case Replace => (Link(s, e.p, e.key, e.value), Stored)
      case Cas => if e.reqCas == it.cas then (Link(s, e.p, e.key, e.value), Stored) else (s, Exists)
      case _ =>
        if e.reqCas != 0 && e.reqCas != it.cas then (s, Exists)
        else if !e.room then (s, NotStored)
        else (Link(s, e.p, e.key, if e.comm == Append then it.value + e.value else e.value + it.value), Stored)
  }

  /** A new id for the item at p. */
  function Renumber(s: State, p: Ptr, cas: nat): State
    requires p in s.items
  {
    s.(items := s.items[p := s.items[p].(cas := cas)])
  }

  /** do_add_delta. The replacing branch also renumbers the old item, which others may still hold; the first error
      return keeps the reference taken by do_item_get. */
  function Deltas(s: State, e: Event): (State, Reply)
    requires e.Delta?
  {
    match Current(s, e.key)
    case None => (s, NotFound)
    case Some(it) =>
      var was := s.index[e.key];
      if |it.value| == 0 then (s.(held := s.held + multiset{was}), NonNumeric)
      else if e.reqCas != 0 && e.reqCas != it.cas then (s, CasMismatch)
      else match e.parsed
        case None => (s, NonNumeric)
        case Some(n) =>
          var text := Decimal(Adjusted(n, e.incr, e.amount));
          if InPlace(s, e.key, text) then
            (State(s.items[was := Item(it.key, Padded(text, it.value), s.casId + 1)], s.index, s.casId + 1, s.held), Ok)
          else if !e.room then (s, OutOfMemory)
          else (Renumber(Link(s, e.p, e.key, text), was, s.casId + 1), Ok)
  }

  /** Nobody else holds the item and the new text fits. */
  predicate InPlace(s: State, k: Key, text: Value) {
    k in s.index && s.index[k] in s.items && |text| <= |s.items[s.index[k]].value| && s.held[s.index[k]] == 0
  }

  ghost predicate Enabled(s: State, e: Event) {
    match e
    case Store(_, _, _, _, p, _) => Unused(s, p)
    case Delta(_, _, _, _, _, p, _) => Unused(s, p)
    case Unlink(p) => p in s.held && p in s.items
    case Rescue(k, p) => k in s.index && s.index[k] in s.items && s.held[s.index[k]] == 0 && Unused(s, p)
    case NextCas => true
    case Get(k) => k in s.index && s.index[k] in s.items
    case Drop(p) => p in s.held
  }

  function Next(s: State, e: Event): State {
    match e
    case Store(_, _, _, _, _, _) => Stores(s, e).0
    case Delta(_, _, _, _, _, _, _) => Deltas(s, e).0
    case Unlink(p) => if Linked(s, p) then s.(index := s.index - {s.items[p].key}) else s
    case Rescue(k, p) => if k in s.index && s.index[k] in s.items then Link(s, p, k, s.items[s.index[k]].value) else s
    case NextCas => s.(casId := s.casId + 1)
    case Get(k) => if k in s.index then s.(held := s.held + multiset{s.index[k]}) else s
    case Drop(p) => s.(held := s.held - multiset{p})
  }

  /** k keeps its item, or the item it has now carries an id never given out before. */
  ghost predicate SameOrNew(s: State, s': State, k: Key) {
    && s.casId <= s'.casId
    && (k in s'.index && s'.index[k] in s'.items ==>
          || (k in s.index && s'.index[k] == s.index[k] && Current(s', k) == Current(s, k))
          || s'.items[s'.index[k]].cas > s.casId)
  }

  lemma LinkKeeps(s: State, p: Ptr, k: Key, v: Value)
    requires Inv(s) && Unused(s, p)
    ensures Inv(Link(s, p, k, v)) && forall l :: SameOrNew(s, Link(s, p, k, v), l)
  {
    var s' := Link(s, p, k, v);
    forall l | l in s'.index ensures KeyOK(s', l) { if l != k { assert KeyOK(s, l); } }
    forall l, n | l in s'.index && n in s'.index ensures Apart(s', l, n) {
      if l != k { assert KeyOK(s, l); }
      if n != k { assert KeyOK(s, n); }
      if l != k && n != k { assert Apart(s, l, n); }
    }
    forall l ensures SameOrNew(s, s', l) { }
  }

  lemma RenumberKeeps(s: State, s': State, p: Ptr)
    requires Inv(s) && p in s.items && (forall k | k in s.index :: s.index[k] != p) && s' == Renumber(s, p, s.casId)
    ensures Inv(s') && forall k :: k in s.index ==> Current(s', k) == Current(s, k)
  {
    forall l | l in s'.index ensures KeyOK(s', l) { assert KeyOK(s, l); }
    forall l, n | l in s'.index && n in s'.index ensures Apart(s', l, n) {
      assert Apart(s, l, n);
      assert KeyOK(s, l) && KeyOK(s, n);
    }
  }

  lemma InPlaceKeeps(s: State, k: Key, v: Value)
    requires Inv(s) && k in s.index && s.index[k] in s.items
    ensures var s' := State(s.items[s.index[k] := Item(s.items[s.index[k]].key, v, s.casId + 1)], s.index, s.casId + 1,
            s.held);
            Inv(s') && forall l :: SameOrNew(s, s', l)
  {
    var p := s.index[k];
    var s' := State(s.items[p := Item(s.items[p].key, v, s.casId + 1)], s.index, s.casId + 1, s.held);
    forall l | l in s'.index ensures KeyOK(s', l) && (s.index[l] == p ==> l == k) { assert KeyOK(s, l) && KeyOK(s, k); }
    forall l, n | l in s'.index && n in s'.index ensures Apart(s', l, n) {
      assert Apart(s, l, n);
      assert KeyOK(s, l) && KeyOK(s, n);
    }
    forall l ensures SameOrNew(s, s', l) { if l in s.index { assert KeyOK(s, l); } }
  }

  lemma FewerKeeps(s: State, s': State)
    requires Inv(s) && s'.items == s.items && s.casId <= s'.casId && (forall p | p in s'.held :: p in s.items)
    requires forall k | k in s'.index :: k in s.index && s'.index[k] == s.index[k]
    ensures Inv(s') && forall l :: SameOrNew(s, s', l)
  {
    forall l | l in s'.index ensures KeyOK(s', l) { assert KeyOK(s, l); }
    forall l, n | l in s'.index && n in s'.index ensures Apart(s', l, n) { assert Apart(s, l, n); }
  }

  lemma DeltaKeeps(s: State, e: Event)
    requires Inv(s) && e.Delta? && Enabled(s, e)
    ensures Inv(Deltas(s, e).0) && forall l :: SameOrNew(s, Deltas(s, e).0, l)
  {
    var s' := Deltas(s, e).0;
    match Current(s, e.key) {
      case None => FewerKeeps(s, s);
      case Some(it) =>
        var was := s.index[e.key];
        if Deltas(s, e).1 != Ok {
          FewerKeeps(s, s');
        } else {
          var text := Decimal(Adjusted(e.parsed.value, e.incr, e.amount));
          if InPlace(s, e.key, text) {
            InPlaceKeeps(s, e.key, Padded(text, it.value));
          } else {
            ReplacingDelta(s, e.key, e.p, text);
          }
        }
    }
  }

  lemma ReplacingDelta(s: State, k: Key, p: Ptr, text: Value)
    requires Inv(s) && k in s.index && s.index[k] in s.items && Unused(s, p)
    ensures var s' := Renumber(Link(s, p, k, text), s.index[k], s.casId + 1);
            Inv(s') && forall l :: SameOrNew(s, s', l)
  {
    var s1, was := Link(s, p, k, text), s.index[k];
    LinkKeeps(s, p, k, text);
    forall l | l in s1.index ensures s1.index[l] != was { if l != k { assert KeyOK(s, l) && KeyOK(s, k); } }
    RenumberKeeps(s1, Renumber(s1, was, s.casId + 1), was);
  }

  lemma StoreKeeps(s: State, e: Event)
    requires Inv(s) && e.Store? && Enabled(s, e)
    ensures Inv(Stores(s, e).0) && forall l :: SameOrNew(s, Stores(s, e).0, l)
  {
    if Stores(s, e).1 == Stored {
      StoreMeaning(s, e);
      LinkKeeps(s, e.p, e.key, Combined(s, e));
    } else {
      FewerKeeps(s, s);
    }
  }

  /** The value a successful command leaves behind. */
  function Combined(s: State, e: Event): Value
    requires e.Store?
  {
    if Current(s, e.key).None? then e.value
    else if e.comm == Append then Current(s, e.key).value.value + e.value
    else if e.comm == Prepend then e.value + Current(s, e.key).value.value
    else e.value
  }

  /** When a store command succeeds. */
  predicate Accepts(s: State, e: Event)
    requires e.Store?
  {
    var it := Current(s, e.key);
    match e.comm
    case Add => it.None?
    case Set => true
    case Replace => it.Some?
    case Cas => it.Some? && it.value.cas == e.reqCas
    case _ => it.Some? && (e.reqCas == 0 || it.value.cas == e.reqCas) && e.room
  }

  /** The commands as a client knows them: what is stored and when, and that a refused command changes nothing. */
  lemma StoreMeaning(s: State, e: Event)
    requires e.Store?
    ensures Stores(s, e).1 == Stored <==> Accepts(s, e)
    ensures Stores(s, e).0 == if Accepts(s, e) then Link(s, e.p, e.key, Combined(s, e)) else s
    ensures !Accepts(s, e) ==> (Stores(s, e).1 == NotFound <==> e.comm == Cas && Current(s, e.key).None?)
    ensures !Accepts(s, e) ==>
              (Stores(s, e).1 == Exists <==>
                 && Current(s, e.key).Some? && e.comm != Add && e.reqCas != Current(s, e.key).value.cas
                 && (e.comm == Cas || e.reqCas != 0))
  {
  }

  /** A store command neither looks at the holders of items nor changes them. */
  lemma StoresIgnoresHolders(s: State, e: Event, h: multiset<Ptr>)
    requires e.Store?
    ensures Stores(s.(held := h), e) == (Stores(s, e).0.(held := h), Stores(s, e).1) && Stores(s, e).0.held == s.held
  {
    StoreMeaning(s, e);
    StoreMeaning(s.(held := h), e);
  }

  lemma OneMore(h: multiset<Ptr>, p: Ptr)
    ensures h + multiset{p} != h && h + multiset{} == h
  {
    assert (h + multiset{p})[p] == h[p] + 1;
  }

  /** An incr or decr keeps a reference exactly when it meets an empty value. */
  lemma DeltaHeld(s: State, e: Event)
    requires e.Delta? && Inv(s)
    ensures var held := Deltas(s, e).0.held;
            && held == s.held + (if EmptyValue(s, e.key) then multiset{s.index[e.key]} else multiset{})
            && (held == s.held <==> !EmptyValue(s, e.key))
  {
    assert e.key in s.index ==> KeyOK(s, e.key);
    OneMore(s.held, if e.key in s.index then s.index[e.key] else NULL);
  }

  /** Every step keeps the ids of linked items distinct and below the counter, and gives a key whose item changes
      a new id. */
  lemma StepKeeps(s: State, e: Event)
    requires Inv(s) && Enabled(s, e)
    ensures Inv(Next(s, e)) && forall l :: SameOrNew(s, Next(s, e), l)
  {
    if e.Store? {
      StoreKeeps(s, e);
    } else if e.Delta? {
      DeltaKeeps(s, e);
    } else if e.Rescue? {
      LinkKeeps(s, e.p, e.key, s.items[s.index[e.key]].value);
    } else {
      OtherKeeps(s, e);
    }
  }

  lemma OtherKeeps(s: State, e: Event)
    requires Inv(s) && Enabled(s, e) && !e.Store? && !e.Delta? && !e.Rescue?
    ensures Inv(Next(s, e)) && forall l :: SameOrNew(s, Next(s, e), l)
  {
    FewerKeeps(s, Next(s, e));
  }

  ghost predicate Runs(s: State, es: seq<Event>, s': State)
    decreases es
  {
    if es == [] then s' == s else Enabled(s, es[0]) && Runs(Next(s, es[0]), es[1..], s')
  }

  lemma {:induction false} RunKeeps(s: State, es: seq<Event>, s': State)
    requires Inv(s) && Runs(s, es, s')
    ensures Inv(s') && s.casId <= s'.casId
    decreases es
  {
    if es != [] {
      StepKeeps(s, es[0]);
      assert SameOrNew(s, Next(s, es[0]), []);
      RunKeeps(Next(s, es[0]), es[1..], s');
    }
  }

  ghost predicate HasId(s: State, k: Key, c: nat) {
    Current(s, k).Some? && Current(s, k).value.cas == c
  }

  /** An id that was given out and is not the one of k will never be the one of k. */
  lemma {:induction false} NeverAgain(s: State, es: seq<Event>, s': State, k: Key, c: nat)
    requires Inv(s) && Runs(s, es, s') && c <= s.casId && !HasId(s, k, c)
    ensures !HasId(s', k, c)
    decreases es
  {
    if es != [] {
      StepKeeps(s, es[0]);
      assert SameOrNew(s, Next(s, es[0]), k);
      NeverAgain(Next(s, es[0]), es[1..], s', k, c);
    }
  }

  /** If k has the same id at both ends of a run, it had the same item with the same value all along. */
  lemma {:induction false} NoABA(s: State, es: seq<Event>, s': State, k: Key, c: nat)
    requires Inv(s) && Runs(s, es, s') && HasId(s, k, c)
    ensures HasId(s', k, c) <==> Untouched(s, es, k)
    ensures HasId(s', k, c) ==> Current(s', k) == Current(s, k)
    decreases es
  {
    if es != [] {
      var t := Next(s, es[0]);
      StepKeeps(s, es[0]);
      assert SameOrNew(s, t, k);
      assert KeyOK(s, k);
      if HasId(t, k, c) {
        NoABA(t, es[1..], s', k, c);
      } else {
        NeverAgain(t, es[1..], s', k, c);
      }
    }
  }

  /** No step of the run changes the item or the value under k. */
  ghost predicate Untouched(s: State, es: seq<Event>, k: Key)
    decreases es
  {
    es != [] ==> Current(Next(s, es[0]), k) == Current(s, k) && k in Next(s, es[0]).index && k in s.index
                 && Next(s, es[0]).index[k] == s.index[k] && Untouched(Next(s, es[0]), es[1..], k)
  }

  /** A cas with the id that k had at an earlier moment is accepted exactly when nothing replaced, changed or removed
      the item of k since then. */
  lemma CasAcceptsIffUntouched(s: State, es: seq<Event>, s': State, e: Event)
    requires Inv(s) && Runs(s, es, s') && e.Store? && e.comm == Cas && HasId(s, e.key, e.reqCas)
    ensures Stores(s', e).1 == Stored <==> Untouched(s, es, e.key)
    ensures Stores(s', e).1 == Stored ==> Current(s', e.key) == Current(s, e.key)
  {
    NoABA(s, es, s', e.key, e.reqCas);
  }

  /** The step is an incr or decr that replaces the item at p by a new one. */
  ghost predicate Replaces(s: State, e: Event, p: Ptr) {
    && e.Delta? && e.key in s.index && s.index[e.key] == p && Deltas(s, e).1 == Ok
    && !InPlace(s, e.key, Decimal(Adjusted(e.parsed.value, e.incr, e.amount)))
  }

  ghost predicate HeldThroughout(s: State, es: seq<Event>, p: Ptr)
    decreases es
  {
    p in s.held && (es != [] ==> HeldThroughout(Next(s, es[0]), es[1..], p))
  }

  ghost predicate NeverReplaced(s: State, es: seq<Event>, p: Ptr)
    decreases es
  {
    es != [] ==> !Replaces(s, es[0], p) && NeverReplaced(Next(s, es[0]), es[1..], p)
  }

  /** What a step may do to an item somebody holds: only a replacing delta changes its id, and nothing its value. */
  lemma HeldStep(s: State, e: Event, p: Ptr)
    requires Inv(s) && Enabled(s, e) && p in s.held
    ensures p in s.items && p in Next(s, e).items && Next(s, e).items[p].value == s.items[p].value &&
            Next(s, e).items[p].key == s.items[p].key
    ensures if Replaces(s, e, p) then Next(s, e).items[p].cas == Next(s, e).casId > s.casId
            else Next(s, e).items[p].cas == s.items[p].cas
  {
    if e.Delta? {
      HeldDelta(s, e, p);
    } else if e.Store? {
      StoreMeaning(s, e);
    }
  }

  lemma HeldDelta(s: State, e: Event, p: Ptr)
    requires Inv(s) && e.Delta? && Enabled(s, e) && p in s.held
    ensures p in s.items && p in Next(s, e).items && Next(s, e).items[p].value == s.items[p].value &&
            Next(s, e).items[p].key == s.items[p].key
    ensures if Replaces(s, e, p) then Next(s, e).items[p].cas == Next(s, e).casId > s.casId
            else Next(s, e).items[p].cas == s.items[p].cas
  {
    if e.key in s.index {
      assert KeyOK(s, e.key);
      assert p != e.p;
    }
  }

  /** A reader that holds an item prints the value it found; it prints the id it found exactly when no incr or decr
      replaced the item in between. */
  lemma {:induction false} PrintedId(s: State, es: seq<Event>, s': State, p: Ptr)
    requires Inv(s) && Runs(s, es, s') && HeldThroughout(s, es, p)
    ensures p in s.items && p in s'.items && s'.items[p].value == s.items[p].value && s.items[p].cas <= s'.items[p].cas
    ensures s'.items[p].cas == s.items[p].cas <==> NeverReplaced(s, es, p)
    decreases es
  {
    if es != [] {
      HeldStep(s, es[0], p);
      StepKeeps(s, es[0]);
      PrintedId(Next(s, es[0]), es[1..], s', p);
    }
  }

  /** The whole path of gets and cas: with the id a reader printed for the item it held, the cas is accepted only if
      the value is still the one the reader printed, provided no incr or decr replaced the item while it was held. */
  lemma ReadThenCas(s: State, read: seq<Event>, t: State, later: seq<Event>, s': State, k: Key, e: Event)
    requires Inv(s) && Runs(s, read, t) && Runs(t, later, s')
    requires k in s.index && s.index[k] in s.held && HeldThroughout(s, read, s.index[k]) &&
             NeverReplaced(s, read, s.index[k])
    requires e.Store? && e.comm == Cas && e.key == k && s.index[k] in t.items && e.reqCas == t.items[s.index[k]].cas
    ensures Stores(s', e).1 == Stored ==>
              Current(s', k).Some? && Current(s', k).value.value == t.items[s.index[k]].value
  {
    assert KeyOK(s, k);
    PrintedId(s, read, t, s.index[k]);
    RunKeeps(s, read, t);
    NoABA(s, read, t, k, e.reqCas);
    if HasId(t, k, e.reqCas) {
      NoABA(t, later, s', k, e.reqCas);
    } else {
      NeverAgain(t, later, s', k, e.reqCas);
    }
  }

  /** Without that proviso it fails: a client sets "5" and a reader takes it, an incr replaces it by "6", and the reader
      prints "5" with the id of "6", so a cas based on the old value is accepted. */
  lemma ReplacedWhileRead() returns (first: seq<Event>, s: State, read: seq<Event>, t: State, e: Event)
    ensures Runs(EMPTY, first, s) && Runs(s, read, t) && "k" in s.index && s.index["k"] in s.held
    ensures HeldThroughout(s, read, s.index["k"]) && s.index["k"] in t.items
    ensures e.Store? && e.comm == Cas && e.key == "k" && e.reqCas == t.items[s.index["k"]].cas
    ensures Stores(t, e).1 == Stored && Current(t, "k").Some?
    ensures Current(t, "k").value.value != t.items[s.index["k"]].value
  {
    first, s := SetAndGet();
    var d := Delta("k", true, 1, 0, Some(5), 2, true);
    t := IncrWhileHeld(s, d);
    read, e := [d], Store(Cas, "k", "9", 2, 3, true);
    assert [d][1..] == [] && HeldThroughout(t, [], 1);
    assert "6" != "5";
  }

  lemma SetAndGet() returns (first: seq<Event>, s: State)
    ensures s == State(map[1 := Item("k", "5", 1)], map["k" := 1], 1, multiset{1}) && Runs(EMPTY, first, s)
  {
    first := [Store(Set, "k", "5", 0, 1, true), Get("k")];
    var s1 := State(map[1 := Item("k", "5", 1)], map["k" := 1], 1, multiset{});
    assert Next(EMPTY, first[0]) == s1;
    s := s1.(held := multiset{1});
    assert Next(s1, first[1]) == s;
    TwoSteps(EMPTY, first[0], first[1]);
  }

  lemma IncrWhileHeld(s: State, d: Event) returns (t: State)
    requires s == State(map[1 := Item("k", "5", 1)], map["k" := 1], 1, multiset{1})
    requires d == Delta("k", true, 1, 0, Some(5), 2, true)
    ensures t == State(map[1 := Item("k", "5", 2), 2 := Item("k", "6", 2)], map["k" := 2], 2, multiset{1})
    ensures t == Next(s, d) && Runs(s, [d], t)
  {
    assert Adjusted(5, true, 1) == 6 && Decimal(6) == ['6'];
    assert s.held[1] == 1;
    t := Next(s, d);
    assert Unused(s, 2);
    assert [d][1..] == [] && Runs(t, [], t);
  }

  lemma TwoSteps(s: State, a: Event, b: Event)
    requires Enabled(s, a) && Enabled(Next(s, a), b)
    ensures Runs(s, [a, b], Next(Next(s, a), b))
  {
    var t := Next(Next(s, a), b);
    assert [a, b][1..] == [b] && [b][1..] == [] && Runs(t, [], t);
    assert Runs(Next(s, a), [b], t);
  }

  // ---------- what the commands do to the values ----------

  /** The value a client reads under k. */
  function ValueOf(s: State, k: Key): Option<Value> {
    if k in s.index && s.index[k] in s.items then Some(s.items[s.index[k]].value) else None
  }

  /** No other key's value or id is different. */
  ghost predicate OnlyKey(s: State, s': State, k: Key) {
    forall l | l != k :: Current(s', l) == Current(s, l)
  }

  /** k now has the value v, under an id that no item had before. */
  ghost predicate Puts(s: State, s': State, k: Key, v: Value) {
    && ValueOf(s', k) == Some(v) && OnlyKey(s, s', k) && HasId(s', k, s.casId + 1) && s'.casId == s.casId + 1
    && s'.held == s.held
  }

  lemma LinkPuts(s: State, p: Ptr, k: Key, v: Value)
    requires Inv(s) && Unused(s, p)
    ensures Puts(s, Link(s, p, k, v), k, v)
  {
    var s' := Link(s, p, k, v);
    forall l | l != k ensures Current(s', l) == Current(s, l) { assert l in s.index ==> KeyOK(s, l); }
  }

  /** What a store command leaves: refused, it changes nothing; accepted, the key has the value sent, or what was there
      with it before or behind. */
  ghost predicate StoredRight(s: State, s': State, e: Event, r: Reply)
    requires e.Store?
  {
    var was := ValueOf(s, e.key);
    && (r == Stored <==> Accepts(s, e)) && (r != Stored ==> s' == s)
    && (r == Stored ==>
          match e.comm
          case Add => was.None? && Puts(s, s', e.key, e.value)
          case Replace => was.Some? && Puts(s, s', e.key, e.value)
          case Set => Puts(s, s', e.key, e.value)
          case Cas => HasId(s, e.key, e.reqCas) && Puts(s, s', e.key, e.value)
          case Append => was.Some? && Puts(s, s', e.key, was.value + e.value)
          case Prepend => was.Some? && Puts(s, s', e.key, e.value + was.value))
  }

  lemma StoreFlow(s: State, e: Event)
    requires Inv(s) && e.Store? && Enabled(s, e)
    ensures StoredRight(s, Stores(s, e).0, e, Stores(s, e).1)
  {
    StoreMeaning(s, e);
    LinkPuts(s, e.p, e.key, Combined(s, e));
  }

  /** When an incr or decr is carried out: there is a number, the id asked for is right, and there is room for the new
      number, in its own place or elsewhere. */
  ghost predicate CanCount(s: State, e: Event)
    requires e.Delta?
  {
    && Current(s, e.key).Some? && e.parsed.Some?
    && var it := Current(s, e.key).value;
       && it.value != [] && (e.reqCas == 0 || it.cas == e.reqCas)
       && (e.room || (s.held[s.index[e.key]] == 0 &&
                      |Decimal(Adjusted(e.parsed.value, e.incr, e.amount))| <= |it.value|))
  }

  /** What it answers. */
  ghost predicate RepliesRight(s: State, e: Event, r: Reply)
    requires e.Delta?
  {
    && (r == Ok <==> CanCount(s, e)) && (r == NotFound <==> Current(s, e.key).None?)
    && (r == CasMismatch <==> Current(s, e.key).Some? && Current(s, e.key).value.value != [] && e.reqCas != 0 &&
                              Current(s, e.key).value.cas != e.reqCas)
    && (r == NonNumeric ==> EmptyValue(s, e.key) || e.parsed.None?)
  }

  /** What an incr or decr leaves: it is carried out exactly when it can be, and then the value under the key reads as
      the number that was read with the amount added, modulo 2 to the 64th, or taken off, but not below zero; otherwise
      no value changes. */
  ghost predicate CountedRight(s: State, s': State, e: Event, r: Reply)
    requires e.Delta?
  {
    && RepliesRight(s, e, r)
    && (r != Ok ==> s'.items == s.items && s'.index == s.index && s'.casId == s.casId)
    && (r == Ok ==>
          && ValueOf(s', e.key).Some? && Puts(s, s', e.key, ValueOf(s', e.key).value)
          && var n := e.parsed.value;
             ReadNumber(ValueOf(s', e.key).value) ==
               Some(if e.incr then (n + e.amount) % 0x1_0000_0000_0000_0000
                    else if e.amount <= n then n - e.amount else 0))
  }

  lemma DeltaFlow(s: State, e: Event)
    requires Inv(s) && e.Delta? && Enabled(s, e)
    ensures CountedRight(s, Deltas(s, e).0, e, Deltas(s, e).1)
  {
    DeltaReplies(s, e);
    if Deltas(s, e).1 == Ok { var v := DeltaPuts(s, e); }
  }

  lemma DeltaReplies(s: State, e: Event)
    requires e.Delta?
    ensures RepliesRight(s, e, Deltas(s, e).1)
    ensures Deltas(s, e).1 != Ok ==>
              var s' := Deltas(s, e).0; s'.items == s.items && s'.index == s.index && s'.casId == s.casId
  {}

  lemma DeltaPuts(s: State, e: Event) returns (v: Value)
    requires Inv(s) && e.Delta? && Enabled(s, e) && Deltas(s, e).1 == Ok
    ensures e.parsed.Some? && ReadNumber(v) == Some(Adjusted(e.parsed.value, e.incr, e.amount))
    ensures Puts(s, Deltas(s, e).0, e.key, v)
  {
    var n := Adjusted(e.parsed.value, e.incr, e.amount);
    var was := Current(s, e.key).value.value;
    ReadBack(n, if |Decimal(n)| <= |was| then |was| - |Decimal(n)| else 0);
    if InPlace(s, e.key, Decimal(n)) {
      v := Padded(Decimal(n), was);
      InPlacePuts(s, e.key, v);
    } else {
      v := Decimal(n);
      ReplacingPuts(s, e.p, e.key, v);
    }
  }

  lemma InPlacePuts(s: State, k: Key, v: Value)
    requires Inv(s) && k in s.index && s.index[k] in s.items
    ensures Puts(s, State(s.items[s.index[k] := Item(s.items[s.index[k]].key, v, s.casId + 1)], s.index, s.casId + 1,
              s.held), k, v)
  {
    var s' := State(s.items[s.index[k] := Item(s.items[s.index[k]].key, v, s.casId + 1)], s.index, s.casId + 1, s.held);
    forall l | l != k ensures Current(s', l) == Current(s, l) {
      assert KeyOK(s, k) && (l in s.index ==> KeyOK(s, l));
    }
  }

  lemma ReplacingPuts(s: State, p: Ptr, k: Key, v: Value)
    requires Inv(s) && k in s.index && s.index[k] in s.items && Unused(s, p)
    ensures Puts(s, Renumber(Link(s, p, k, v), s.index[k], s.casId + 1), k, v)
  {
    var s' := Renumber(Link(s, p, k, v), s.index[k], s.casId + 1);
    forall l | l != k ensures Current(s', l) == Current(s, l) {
      assert KeyOK(s, k) && (l in s.index ==> KeyOK(s, l));
    }
  }

  /** The cache as a worker changes it. */
  class Server {
    var s: State

    constructor ()
      ensures s == EMPTY && Inv(s)
    {
      s := EMPTY;
    }

    /** get_cas_id. */
    method NextCasId() returns (id: nat)
      modifies this
      ensures s == old(s).(casId := old(s.casId) + 1) && id == s.casId
    {
      s := s.(casId := s.casId + 1);
      id := s.casId;
    }

    /** do_item_link, after do_item_unlink of the item under the same key if there is one. */
    method LinkItem(p: Ptr, key: Key, value: Value)
      modifies this
      ensures s == Link(old(s), p, key, value)
    {
      var id := NextCasId();
      s := s.(items := s.items[p := Item(key, value, id)]);
      s := s.(index := s.index[key := p]);
    }

    /** The reference that do_item_get and do_item_alloc hand out. */
    method Take(p: Ptr)
      modifies this
      ensures s == old(s).(held := old(s.held) + multiset{p}) && RefCount(s, p) == RefCount(old(s), p) + 1
    {
      s := s.(held := s.held + multiset{p});
    }

    /** do_item_remove. */
    method Remove(p: Ptr)
      requires p in s.held
      modifies this
      ensures s == old(s).(held := old(s.held) - multiset{p}) && RefCount(s, p) == RefCount(old(s), p) - 1
    {
      s := s.(held := s.held - multiset{p});
    }

    /** do_store_item: the reference to the old item is given back on every path. */
    method DoStoreItem(e: Event) returns (stored: Reply)
      requires Inv(s) && e.Store? && Enabled(s, e)
      modifies this
      ensures Inv(s) && (s, stored) == Stores(old(s), e) && s.held == old(s.held)
      ensures StoredRight(old(s), s, e, stored)
    {
      StoreKeeps(s, e);
      StoreFlow(s, e);
      StoresIgnoresHolders(s, e, s.held);
      var found := e.key in s.index && s.index[e.key] in s.items;
      if found {
        var p := s.index[e.key];
        StoresIgnoresHolders(s, e, s.held + multiset{p});
        Take(p);
        stored := Decide(e, true);
        GiveUp(p, old(s.held));
      } else {
        stored := Decide(e, false);
      }
    }

    /** The branches of do_store_item between its do_item_get and its last lines. */
    method Decide(e: Event, found: bool) returns (stored: Reply)
      requires e.Store? && found == (e.key in s.index && s.index[e.key] in s.items)
      modifies this
      ensures (s, stored) == Stores(old(s), e)
    {
      stored := NotStored;
      if found && e.comm == Add {
      } else if !found && (e.comm == Replace || e.comm == Append || e.comm == Prepend) {
      } else if e.comm == Cas {
        if !found {
          stored := NotFound;
        } else if e.reqCas == s.items[s.index[e.key]].cas {
          LinkItem(e.p, e.key, e.value);
          stored := Stored;
        } else {
          stored := Exists;
        }
      } else {
        var failed, value := false, e.value;
        if e.comm == Append || e.comm == Prepend {
          var it := s.items[s.index[e.key]];
          if e.reqCas != 0 && e.reqCas != it.cas { stored := Exists; }
          if stored == NotStored {
            if !e.room { failed := true; }
            value := if e.comm == Append then it.value + e.value else e.value + it.value;
          }
        }
        if stored == NotStored && !failed {
          LinkItem(e.p, e.key, value);
          stored := Stored;
        }
      }
    }

    /** The id first, then the bytes. */
    method ChangeInPlace(p: Ptr, value: Value)
      requires p in s.items
      modifies this
      ensures s == State(old(s.items)[p := Item(old(s.items[p].key), value, old(s.casId) + 1)], old(s.index),
              old(s.casId) + 1, old(s.held))
    {
      var id := NextCasId();
      ghost var m, it := s.items, s.items[p];
      s := s.(items := s.items[p := s.items[p].(cas := id)]);
      s := s.(items := s.items[p := s.items[p].(value := value)]);
      assert s.items == m[p := Item(it.key, value, id)];
    }

    /** do_add_delta, with the reference that do_item_get takes at its start and the do_item_remove of each return. All
        references are back at the end if and only if there is no item or its value is not empty; otherwise one more
        stays on the item. */
    method DoAddDelta(e: Event) returns (r: Reply)
      requires Inv(s) && e.Delta? && Enabled(s, e)
      modifies this
      ensures Inv(s) && (s, r) == Deltas(old(s), e) && CountedRight(old(s), s, e, r)
      ensures s.held == old(s.held) + (if EmptyValue(old(s), e.key) then multiset{old(s.index)[e.key]} else multiset{})
      ensures s.held == old(s.held) <==> !EmptyValue(old(s), e.key)
    {
      DeltaKeeps(s, e);
      DeltaFlow(s, e);
      DeltaHeld(s, e);
      r := AddDelta(e);
    }

    method AddDelta(e: Event) returns (r: Reply)
      requires Inv(s) && e.Delta? && Enabled(s, e)
      modifies this
      ensures (s, r) == Deltas(old(s), e)
    {
      if e.key !in s.index || s.index[e.key] !in s.items {
        return NotFound;
      }
      assert KeyOK(s, e.key);
      var p := s.index[e.key];
      Take(p);
      var it := s.items[p];
      if |it.value| == 0 { return NonNumeric; }
      if e.reqCas != 0 && it.cas != e.reqCas {
        GiveUp(p, old(s.held));
        return CasMismatch;
      }
      if e.parsed.None? {
        GiveUp(p, old(s.held));
        return NonNumeric;
      }
      r := WriteNumber(p, e, Decimal(Adjusted(e.parsed.value, e.incr, e.amount)), old(s.held));
    }

    /** The new number is written over the old one if it fits and nobody else holds the item, and into a new item
        otherwise. */
    method WriteNumber(p: Ptr, e: Event, text: Value, ghost before: multiset<Ptr>) returns (r: Reply)
      requires e.Delta? && e.key in s.index && s.index[e.key] == p && p in s.items && s.items[p].key == e.key
      requires s.held == before + multiset{p} && Unused(s.(held := before), e.p)
      modifies this
      ensures var was := old(s).(held := before); var it := was.items[p];
              if InPlace(was, e.key, text) then
                s == was.(items := was.items[p := Item(it.key, Padded(text, it.value), was.casId + 1)],
                          casId := was.casId + 1) &&
                r == Ok
              else if !e.room then s == was && r == OutOfMemory
              else s == Renumber(Link(was, e.p, e.key, text), p, was.casId + 1) && r == Ok
    {
      var it := s.items[p];
      assert RefCount(s, p) > 1;
      if |text| <= |it.value| && RefCount(s, p) == 2 {
        ChangeInPlace(p, Padded(text, it.value));
      } else {
        if !e.room {
          GiveUp(p, before);
          return OutOfMemory;
        }
        ReplaceBy(p, e.p, e.key, text);
      }
      GiveUp(p, before);
      return Ok;
    }

    /** do_item_remove of the reference taken at the start. */
    method GiveUp(p: Ptr, ghost before: multiset<Ptr>)
      requires s.held == before + multiset{p}
      modifies this
      ensures s == old(s).(held := before)
    {
      Remove(p);
      assert before + multiset{p} - multiset{p} == before;
    }

    /** item_replace by a new item, whose creator's reference is dropped, and the new id for the old item too. */
    method ReplaceBy(p: Ptr, q: Ptr, key: Key, text: Value)
      requires p in s.items && p != q
      modifies this
      ensures s == Renumber(Link(old(s), q, key, text), p, old(s.casId) + 1)
    {
      ghost var h := s.held;
      Take(q);
      LinkItem(q, key, text);
      s := s.(items := s.items[p := s.items[p].(cas := s.items[q].cas)]);
      Remove(q);
      assert h + multiset{q} - multiset{q} == h;
    }
  }

  /** The key has an item, and its value is empty. */
  predicate EmptyValue(s: State, k: Key) { Current(s, k).Some? && Current(s, k).value.value == [] }

  /** What a step does to the references to p: a get may take one, a drop gives one back, and an incr or decr of an
      empty value takes one. */
  function Taken(s: State, e: Event, p: Ptr): nat { Bit(e.Get? && e.key in s.index && s.index[e.key] == p) }

  function Returned(e: Event, p: Ptr): nat { Bit(e == Drop(p)) }

  function Kept(s: State, e: Event, p: Ptr): nat { Bit(e.Delta? && EmptyValue(s, e.key) && s.index[e.key] == p) }

  lemma StepBalance(s: State, e: Event, p: Ptr)
    requires Enabled(s, e)
    ensures Next(s, e).held[p] == s.held[p] + Taken(s, e, p) + Kept(s, e, p) - Returned(e, p)
  {
    match e {
      case Store(_, _, _, _, _, _) => StoresIgnoresHolders(s, e, s.held);
      case Delta(_, _, _, _, _, _, _) => DeltaBalance(s, e, p);
      case _ => OtherBalance(s, e, p);
    }
  }

  lemma OtherBalance(s: State, e: Event, p: Ptr)
    requires Enabled(s, e) && !e.Store? && !e.Delta?
    ensures Next(s, e).held[p] == s.held[p] + Taken(s, e, p) - Returned(e, p) && Kept(s, e, p) == 0
  {}

  lemma DeltaBalance(s: State, e: Event, p: Ptr)
    requires e.Delta?
    ensures Deltas(s, e).0.held[p] == s.held[p] + Kept(s, e, p)
  {}

  /** The references to p that readers take in a run, those given back, and those an incr or decr keeps. */
  ghost function Takes(s: State, es: seq<Event>, p: Ptr): nat
    decreases es
  {
    if es == [] then 0 else Taken(s, es[0], p) + Takes(Next(s, es[0]), es[1..], p)
  }

  ghost function Returns(es: seq<Event>, p: Ptr): nat {
    if es == [] then 0 else Returned(es[0], p) + Returns(es[1..], p)
  }

  ghost function Keeps(s: State, es: seq<Event>, p: Ptr): nat
    decreases es
  {
    if es == [] then 0 else Kept(s, es[0], p) + Keeps(Next(s, es[0]), es[1..], p)
  }

  /** Over every run the references to an item add up: taken by readers, less given back, and one for every incr or decr
      that met it empty. */
  lemma {:induction false} HeldExactly(s: State, es: seq<Event>, s': State, p: Ptr)
    requires Runs(s, es, s')
    ensures s'.held[p] == s.held[p] + Takes(s, es, p) + Keeps(s, es, p) - Returns(es, p)
    decreases es
  {
    if es != [] {
      StepBalance(s, es[0], p);
      HeldExactly(Next(s, es[0]), es[1..], s', p);
    }
  }

  /** The item at p is stuck: the page mover may not rescue it under any key, and its memory may not be used again. */
  ghost predicate Stuck(s: State, p: Ptr) {
    !Unused(s, p) && forall k, q | k in s.index && s.index[k] == p :: !Enabled(s, Rescue(k, q))
  }

  /** When the readers of a run from an empty server have given back exactly the references they took, somebody is still
      counted as a holder of p if and only if an incr or decr met it empty. */
  lemma LeakedIff(es: seq<Event>, s': State, p: Ptr)
    requires Runs(EMPTY, es, s') && Returns(es, p) == Takes(EMPTY, es, p)
    ensures p in s'.held <==> Keeps(EMPTY, es, p) > 0
  {
    HeldExactly(EMPTY, es, s', p);
  }

  /** Such a reference outlasts every run in which nobody gives back more references to p than were taken in it. */
  lemma LeakLasts(s: State, es: seq<Event>, s': State, p: Ptr)
    requires Runs(s, es, s') && p in s.held && Returns(es, p) <= Takes(s, es, p)
    ensures p in s'.held && Stuck(s', p)
  {
    HeldExactly(s, es, s', p);
  }

  /** It happens: a client sets an empty value and increments it. No reader has a reference to the item, and whatever
      run follows, as long as readers give back no more than they take, the item stays where it is. */
  lemma EmptyValueLeaks(parsed: Option<nat>)
    ensures exists es: seq<Event>, t: State ::
              && Runs(EMPTY, es, t) && |es| == 2 && Takes(EMPTY, es, 1) == 0 && "k" in t.index && t.index["k"] == 1
              && forall later, s' :: Runs(t, later, s') && Returns(later, 1) <= Takes(t, later, 1) ==> Stuck(s', 1)
  {
    var set_, incr := Store(Set, "k", "", 0, 1, true), Delta("k", true, 1, 0, parsed, 2, true);
    var s1 := State(map[1 := Item("k", "", 1)], map["k" := 1], 1, multiset{});
    assert s1 == Next(EMPTY, set_);
    var t := s1.(held := multiset{1});
    assert t == Next(s1, incr);
    var es := [set_, incr];
    TwoSteps(EMPTY, set_, incr);
    assert Takes(EMPTY, es, 1) == 0 by {
      assert es[1..] == [incr] && [incr][1..] == [];
      assert Takes(s1, [incr], 1) == 0;
    }
    forall later, s' | Runs(t, later, s') && Returns(later, 1) <= Takes(t, later, 1) ensures Stuck(s', 1) {
      LeakLasts(t, later, s', 1);
    }
  }
}
