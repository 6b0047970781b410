/** SteamFactory: a registry of named attribute bags (`factories`) and of
    named counter-backed generators (`sequences`), with `define`, `build`,
    `attributesFor`, `sequence` and `alias` over them. */
module SteamFactory {
  import opened Objects

  /** A function state. It is called with the object under construction;
      it may update that object (first component) and returns an object
      whose properties are then merged in (second component; the empty map
      when it returns nothing). */
  type Transformer = Attrs -> (Attrs, Attrs)

  /** An element of a `states` array: an object, a string (a factory name),
      or a function. */
  datatype State = Obj(bag: Bag) | Ref(name: string) | Fn(transformer: Transformer)

  ghost function StateBags(elems: seq<State>): set<Bag>
  {
    set e | e in elems && e.Obj? :: e.bag
  }

  ghost function ArgBags(states: Arg<State>): set<Bag>
  {
    match states
    case Plain(x) => if x.Object? then {x.bag} else {}
    case Array(elems) => StateBags(elems)
  }

  /** `isBlank`: undefined, null, the empty string and the empty array. */
  predicate IsBlank(states: Arg<State>)
    reads if states.Plain? && states.x.Object? then {states.x.bag} else {}
    ensures IsBlank(states) && states.Plain? ==> Enumerable(states.x) == map[]
    ensures IsBlank(states) && states.Array? ==> |states.elems| == 0
    ensures states.Plain? && states.x.Object? ==> !IsBlank(states)
  {
    match states
    case Plain(x) => x.Undefined? || x.Null? || (x.Text? && |x.s| == 0)
    case Array(elems) => |elems| == 0
  }

  /** The first value of a sequence's counter: `initial || 1`. */
  function Seed(initial: Option<int>): (s: int)
    ensures s != 0
    ensures initial.Some? && initial.value != 0 ==> s == initial.value
    ensures initial == None || initial == Some(0) ==> s == 1
  {
    if initial.Some? && initial.value != 0 then initial.value else 1
  }

  /** One step of the `build` loop over an array of states. Strings are
      ignored. */
  function BuildStep(acc: Attrs, e: State): Attrs
    reads if e.Obj? then {e.bag} else {}
  {
    match e
    case Obj(b) => acc + b.attrs
    case Ref(_) => acc
    case Fn(t) => t(acc).0 + t(acc).1
  }

  /** Pass `i` of the `build` loop, over the prefix folded so far. */
  method BuildNext(elems: seq<State>, i: nat, dst: Bag)
    requires i < |elems| && dst !in StateBags(elems)
    requires dst.attrs == BuildFold(elems[..i])
    modifies dst
    ensures dst.attrs == BuildFold(elems[..i + 1])
    ensures unchanged(StateBags(elems))
  {
    assert elems[i] in elems;
    assert StateBags(elems[..i + 1]) <= StateBags(elems);
    assert elems[..i + 1][..i] == elems[..i];
    ghost var next := BuildFold(elems[..i + 1]);
    assert next == BuildStep(dst.attrs, elems[i]);
    ApplyState(dst, elems[i]);
    assert dst.attrs == next;
  }

  /** Pass `i` of the `define` loop, over the prefix folded so far. */
  method DefineNext(f: Table, elems: seq<State>, i: nat, dst: Bag)
    requires i < |elems| && dst !in StateBags(elems) && dst !in TableBags(f)
    requires dst.attrs == DefineFold(f, elems[..i])
    modifies dst
    ensures dst.attrs == DefineFold(f, elems[..i + 1])
    ensures unchanged(TableBags(f), StateBags(elems))
  {
    assert elems[i] in elems;
    assert StateBags(elems[..i + 1]) <= StateBags(elems);
    assert elems[..i + 1][..i] == elems[..i];
    ghost var next := DefineFold(f, elems[..i + 1]);
    assert next == DefineStep(f, dst.attrs, elems[i]);
    ApplyDefineState(f, dst, elems[i]);
    assert dst.attrs == next;
  }

  /** The `build` loop over an array of states, from an empty object. */
  function BuildFold(elems: seq<State>): Attrs
    reads StateBags(elems)
    decreases |elems|
  {
    if elems == [] then map[]
    else BuildStep(BuildFold(elems[..|elems| - 1]), elems[|elems| - 1])
  }

  /** One step of the `define` loop: as in `build`, except that a string
      merges in what the table currently holds under that name. */
  function DefineStep(f: Table, acc: Attrs, e: State): Attrs
    reads TableBags(f), if e.Obj? then {e.bag} else {}
  {
    match e
    case Ref(n) => acc + Enumerable(Get(f, n))
    case _ => BuildStep(acc, e)
  }

  function DefineFold(f: Table, elems: seq<State>): Attrs
    reads TableBags(f), StateBags(elems)
    decreases |elems|
  {
    if elems == [] then map[]
    else DefineStep(f, DefineFold(f, elems[..|elems| - 1]), elems[|elems| - 1])
  }

  /** The object `build(name, states)` has before its sequences are run. */
  function Merged(f: Table, name: string, states: Arg<State>): Attrs
    reads TableBags(f), ArgBags(states)
  {
    if IsBlank(states) then Enumerable(Get(f, name))
    else if states.Array? then BuildFold(states.elems)
    else Enumerable(Get(f, name)) + Enumerable(states.x)
  }

  /** `executeSequences` reads `dst[i].isSteamFactorySequence`, which throws
      on a null or undefined property. */
  predicate NoNullish(m: Attrs)
  {
    forall k | k in m :: !m[k].Nullish?
  }

  function SeqKeys(m: Attrs): set<string>
  {
    set k | k in m && m[k].SeqFn?
  }

  function Generators(m: Attrs): set<Generator>
  {
    set k | k in m && m[k].SeqFn? :: m[k].gen
  }

  /** The number of keys among `keys` that hold generator `g`. */
  function UsesIn(m: Attrs, g: Generator, keys: set<string>): nat
  {
    |set k | k in keys && k in m && m[k] == SeqFn(g)|
  }

  function Uses(m: Attrs, g: Generator): nat
  {
    UsesIn(m, g, m.Keys)
  }

  function Counters(m: Attrs): map<Generator, int>
    reads Generators(m)
  {
    map g | g in Generators(m) :: g.counter
  }

  /** What generator `g` returns when its counter is `n`. */
  function Output(g: Generator, n: int): Value
  {
    g.transform(n)
  }

  /** `r` is `m` with every generator replaced by one of its values.
      Counters start at `c0`; the key `k` got the `slot[k]`-th call of its
      generator, and no two keys got the same call. */
  ghost predicate Resolved(m: Attrs, r: Attrs, slot: map<string, nat>, c0: map<Generator, int>)
    requires Generators(m) <= c0.Keys
  {
    && r.Keys == m.Keys
    && (forall k | k in m && !m[k].SeqFn? :: r[k] == m[k])
    && slot.Keys == SeqKeys(m)
    && (forall k | k in slot ::
          slot[k] < Uses(m, m[k].gen) && r[k] == Output(m[k].gen, c0[m[k].gen] + slot[k]))
    && (forall k1, k2 | k1 in slot && k2 in slot && k1 != k2 && m[k1] == m[k2] :: slot[k1] != slot[k2])
  }

  lemma UsesInStep(m: Attrs, g: Generator, done: set<string>, k: string)
    requires k in m && k !in done
    ensures UsesIn(m, g, done + {k}) == UsesIn(m, g, done) + (if m[k] == SeqFn(g) then 1 else 0)
  {
    var before := set j | j in done && j in m && m[j] == SeqFn(g);
    var after := set j | j in done + {k} && j in m && m[j] == SeqFn(g);
    if m[k] == SeqFn(g) {
      assert after == before + {k};
    } else {
      assert after == before;
    }
  }

  /** Keys not yet visited, and unflagged values, are as they were. */
  ghost predicate Untouched(m: Attrs, r: Attrs, done: set<string>)
  {
    && r.Keys == m.Keys
    && (forall k | k in m && (k !in done || !m[k].SeqFn?) :: r[k] == m[k])
  }

  /** The visited flagged keys are the ones that have a slot. */
  ghost predicate SlotKeys(m: Attrs, slot: map<string, nat>, done: set<string>)
  {
    slot.Keys == (set k | k in done && k in m && m[k].SeqFn?)
  }

  /** Every slotted key holds the `slot[k]`-th value of its generator. */
  ghost predicate SlotValues(m: Attrs, r: Attrs, slot: map<string, nat>, c0: map<Generator, int>, done: set<string>)
    requires Generators(m) <= c0.Keys
  {
    forall k | k in slot && k in m && m[k].SeqFn? ::
      slot[k] < UsesIn(m, m[k].gen, done) && k in r && r[k] == Output(m[k].gen, c0[m[k].gen] + slot[k])
  }

  /** No two keys share a call of one generator. */
  ghost predicate SlotsDistinct(m: Attrs, slot: map<string, nat>)
  {
    forall k1, k2 | k1 in slot && k2 in slot && k1 != k2 && k1 in m && k2 in m && m[k1] == m[k2] ::
      slot[k1] != slot[k2]
  }

  lemma SlotKeysStep(m: Attrs, slot: map<string, nat>, done: set<string>, k: string, slot': map<string, nat>)
    requires SlotKeys(m, slot, done) && k in m && k !in done
    requires m[k].SeqFn? ==> slot'.Keys == slot.Keys + {k}
    requires !m[k].SeqFn? ==> slot' == slot
    ensures SlotKeys(m, slot', done + {k})
  {
    var before := set j | j in done && j in m && m[j].SeqFn?;
    var after := set j | j in done + {k} && j in m && m[j].SeqFn?;
    if m[k].SeqFn? {
      assert after == before + {k};
    } else {
      assert after == before;
    }
  }

  /** Visiting an unflagged key changes no slot and no use count. */
  lemma SlotValuesSkip(m: Attrs, r: Attrs, slot: map<string, nat>, c0: map<Generator, int>,
                       done: set<string>, k: string)
    requires Generators(m) <= c0.Keys
    requires SlotValues(m, r, slot, c0, done) && k in m && k !in done && !m[k].SeqFn?
    ensures SlotValues(m, r, slot, c0, done + {k})
  {
    forall j | j in slot && j in m && m[j].SeqFn?
      ensures slot[j] < UsesIn(m, m[j].gen, done + {k})
    {
      UsesInStep(m, m[j].gen, done, k);
    }
  }

  /** Visiting a flagged key gives it the next unused call of its generator. */
  lemma SlotValuesCall(m: Attrs, r: Attrs, slot: map<string, nat>, c0: map<Generator, int>,
                       done: set<string>, k: string)
    requires Generators(m) <= c0.Keys
    requires SlotValues(m, r, slot, c0, done) && k in m && k !in done && m[k].SeqFn?
    requires k !in slot
    ensures m[k].gen in Generators(m)
    ensures
      var g := m[k].gen;
      var u := UsesIn(m, g, done);
      SlotValues(m, r[k := Output(g, c0[g] + u)], slot[k := u], c0, done + {k})
  {
    var g := m[k].gen;
    assert g in Generators(m);
    var u := UsesIn(m, g, done);
    var r' := r[k := Output(g, c0[g] + u)];
    var slot' := slot[k := u];
    forall j | j in slot' && j in m && m[j].SeqFn?
      ensures slot'[j] < UsesIn(m, m[j].gen, done + {k})
      ensures j in r' && r'[j] == Output(m[j].gen, c0[m[j].gen] + slot'[j])
    {
      UsesInStep(m, m[j].gen, done, k);
    }
  }

  lemma SlotsDistinctStep(m: Attrs, slot: map<string, nat>, c0: map<Generator, int>, done: set<string>,
                          r: Attrs, k: string, slot': map<string, nat>)
    requires Generators(m) <= c0.Keys
    requires SlotsDistinct(m, slot) && SlotValues(m, r, slot, c0, done) && SlotKeys(m, slot, done)
    requires k in m && k !in done
    requires m[k].SeqFn? ==> slot' == slot[k := UsesIn(m, m[k].gen, done)]
    requires !m[k].SeqFn? ==> slot' == slot
    ensures SlotsDistinct(m, slot')
  {
    forall k1, k2 | k1 in slot' && k2 in slot' && k1 != k2 && k1 in m && k2 in m && m[k1] == m[k2]
      ensures slot'[k1] != slot'[k2]
    {
      if k1 != k && k2 != k {
        assert slot'[k1] == slot[k1] && slot'[k2] == slot[k2];
      }
    }
  }

  lemma UntouchedStep(m: Attrs, r: Attrs, done: set<string>, k: string, r': Attrs)
    requires Untouched(m, r, done) && k in m && k !in done
    requires m[k].SeqFn? ==> k in r' && r' == r[k := r'[k]]
    requires !m[k].SeqFn? ==> r' == r
    ensures Untouched(m, r', done + {k})
  {
  }

  /** Once every key is visited, the pieces of the loop invariant say that
      the object is resolved. */
  lemma ResolvedAtEnd(m: Attrs, r: Attrs, slot: map<string, nat>, c0: map<Generator, int>)
    requires Generators(m) <= c0.Keys
    requires Untouched(m, r, m.Keys) && SlotKeys(m, slot, m.Keys)
    requires SlotValues(m, r, slot, c0, m.Keys) && SlotsDistinct(m, slot)
    ensures Resolved(m, r, slot, c0)
  {
    assert slot.Keys == SeqKeys(m);
  }

  /** The loop invariant of `executeSequences` after visiting the keys
      `done`: object so far `r`, counters so far `c`, calls handed out `slot`. */
  ghost predicate Progress(m: Attrs, c0: map<Generator, int>, done: set<string>,
                           r: Attrs, c: map<Generator, int>, slot: map<string, nat>)
    requires Generators(m) <= c0.Keys
  {
    && Untouched(m, r, done)
    && SlotKeys(m, slot, done)
    && SlotValues(m, r, slot, c0, done)
    && SlotsDistinct(m, slot)
    && c.Keys == c0.Keys
    && (forall g | g in Generators(m) :: c[g] == c0[g] + UsesIn(m, g, done))
  }

  lemma ProgressSkip(m: Attrs, c0: map<Generator, int>, done: set<string>,
                     r: Attrs, c: map<Generator, int>, slot: map<string, nat>, k: string)
    requires Generators(m) <= c0.Keys
    requires Progress(m, c0, done, r, c, slot)
    requires k in m && k !in done && !m[k].SeqFn?
    ensures Progress(m, c0, done + {k}, r, c, slot)
  {
    UntouchedStep(m, r, done, k, r);
    SlotKeysStep(m, slot, done, k, slot);
    SlotValuesSkip(m, r, slot, c0, done, k);
    forall g | g in Generators(m) ensures c[g] == c0[g] + UsesIn(m, g, done + {k}) {
      UsesInStep(m, g, done, k);
    }
  }

  lemma ProgressCall(m: Attrs, c0: map<Generator, int>, done: set<string>,
                     r: Attrs, c: map<Generator, int>, slot: map<string, nat>, k: string)
    requires Generators(m) <= c0.Keys
    requires Progress(m, c0, done, r, c, slot)
    requires k in m && k !in done && m[k].SeqFn?
    ensures m[k].gen in Generators(m)
    ensures
      var g := m[k].gen;
      Progress(m, c0, done + {k}, r[k := Output(g, c[g])], c[g := c[g] + 1], slot[k := UsesIn(m, g, done)])
  {
    var g := m[k].gen;
    assert g in Generators(m);
    var u := UsesIn(m, g, done);
    assert c[g] == c0[g] + u;
    var r' := r[k := Output(g, c0[g] + u)];
    var slot' := slot[k := u];
    assert k !in slot;
    UntouchedStep(m, r, done, k, r');
    SlotKeysStep(m, slot, done, k, slot');
    SlotValuesCall(m, r, slot, c0, done, k);
    SlotsDistinctStep(m, slot, c0, done, r, k, slot');
    CountsCall(m, c0, done, c, k);
  }

  /** Visiting a flagged key advances its generator's count, and only it. */
  lemma CountsCall(m: Attrs, c0: map<Generator, int>, done: set<string>, c: map<Generator, int>, k: string)
    requires Generators(m) <= c0.Keys && c.Keys == c0.Keys
    requires forall g | g in Generators(m) :: c[g] == c0[g] + UsesIn(m, g, done)
    requires k in m && k !in done && m[k].SeqFn?
    ensures forall h | h in Generators(m) ::
      c[m[k].gen := c[m[k].gen] + 1][h] == c0[h] + UsesIn(m, h, done + {k})
  {
    var g := m[k].gen;
    assert g in Generators(m);
    forall h | h in Generators(m) ensures c[g := c[g] + 1][h] == c0[h] + UsesIn(m, h, done + {k}) {
      UsesInStep(m, h, done, k);
    }
  }

  function Elems(order: seq<string>): set<string>
  {
    set k | k in order
  }

  predicate NoDup(order: seq<string>)
  {
    forall i, j | 0 <= i < j < |order| :: order[i] != order[j]
  }

  /** `executeSequences` after visiting the keys `order`, in that order:
      the object so far and the counters so far. */
  function Run(m: Attrs, order: seq<string>, c0: map<Generator, int>): (rc: (Attrs, map<Generator, int>))
    requires Generators(m) <= c0.Keys
    requires Elems(order) <= m.Keys
    ensures rc.1.Keys == c0.Keys
    decreases |order|
  {
    if order == [] then (m, c0)
    else
      var k := order[|order| - 1];
      var prev := order[..|order| - 1];
      assert Elems(prev) <= Elems(order);
      var (r, c) := Run(m, prev, c0);
      if m[k].SeqFn? then
        var g := m[k].gen;
        assert g in Generators(m);
        (r[k := Output(g, c[g])], c[g := c[g] + 1])
      else (r, c)
  }

  /** Which call of its generator each visited flagged key received. */
  function Slots(m: Attrs, order: seq<string>): map<string, nat>
    requires Elems(order) <= m.Keys
    decreases |order|
  {
    if order == [] then map[]
    else
      var k := order[|order| - 1];
      var prev := order[..|order| - 1];
      assert Elems(prev) <= Elems(order);
      if m[k].SeqFn? then Slots(m, prev)[k := UsesIn(m, m[k].gen, Elems(prev))]
      else Slots(m, prev)
  }

  /** The last key of a visiting order without repetitions is new. */
  lemma SnocOrder(order: seq<string>)
    requires order != [] && NoDup(order)
    ensures var prev := order[..|order| - 1];
      var k := order[|order| - 1];
      && order == prev + [k] && NoDup(prev)
      && Elems(order) == Elems(prev) + {k} && k !in Elems(prev)
  {
    var n := |order| - 1;
    assert order == order[..n] + [order[n]];
    assert Elems(order) == Elems(order[..n]) + {order[n]};
  }

  /** One more visited key: `Slots` hands it the next call of its generator. */
  lemma SlotsSnoc(m: Attrs, order: seq<string>, k: string)
    requires Elems(order) <= m.Keys && k in m
    ensures Elems(order + [k]) <= m.Keys
    ensures m[k].SeqFn? ==> Slots(m, order + [k]) == Slots(m, order)[k := UsesIn(m, m[k].gen, Elems(order))]
    ensures !m[k].SeqFn? ==> Slots(m, order + [k]) == Slots(m, order)
  {
    assert (order + [k])[..|order|] == order;
    assert Elems(order + [k]) == Elems(order) + {k};
  }

  /** Visiting one more key keeps the loop invariant. */
  lemma RunStep(m: Attrs, prev: seq<string>, c0: map<Generator, int>, k: string)
    requires Generators(m) <= c0.Keys
    requires Elems(prev) <= m.Keys && k in m && k !in Elems(prev)
    requires Progress(m, c0, Elems(prev), Run(m, prev, c0).0, Run(m, prev, c0).1, Slots(m, prev))
    ensures Elems(prev + [k]) == Elems(prev) + {k}
    ensures Progress(m, c0, Elems(prev) + {k}, Run(m, prev + [k], c0).0, Run(m, prev + [k], c0).1,
                     Slots(m, prev + [k]))
  {
    RunSnoc(m, prev, c0, k);
    SlotsSnoc(m, prev, k);
    var (r, c) := Run(m, prev, c0);
    if m[k].SeqFn? {
      ProgressCall(m, c0, Elems(prev), r, c, Slots(m, prev), k);
    } else {
      ProgressSkip(m, c0, Elems(prev), r, c, Slots(m, prev), k);
    }
  }

  /** The loop invariant of `executeSequences`, proved for every visiting
      order without repetitions. */
  lemma {:induction false} RunInvariant(m: Attrs, order: seq<string>, c0: map<Generator, int>)
    requires Generators(m) <= c0.Keys
    requires Elems(order) <= m.Keys && NoDup(order)
    ensures Progress(m, c0, Elems(order), Run(m, order, c0).0, Run(m, order, c0).1, Slots(m, order))
  {
    if order == [] {
      forall g | g in Generators(m) ensures UsesIn(m, g, {}) == 0 {
      }
    } else {
      var prev := order[..|order| - 1];
      var k := order[|order| - 1];
      SnocOrder(order);
      RunInvariant(m, prev, c0);
      RunStep(m, prev, c0, k);
    }
  }

  /** `Run` leaves the keys not yet visited as they were. */
  lemma {:induction false} RunKeeps(m: Attrs, order: seq<string>, c0: map<Generator, int>, k: string)
    requires Generators(m) <= c0.Keys
    requires Elems(order) <= m.Keys && k in m && k !in Elems(order)
    ensures k in Run(m, order, c0).0 && Run(m, order, c0).0[k] == m[k]
    decreases |order|
  {
    if order != [] {
      var prev := order[..|order| - 1];
      assert Elems(prev) <= Elems(order);
      RunKeeps(m, prev, c0, k);
    }
  }

  /** One more visited key: `Run` calls its generator once, if it has one. */
  lemma RunSnoc(m: Attrs, order: seq<string>, c0: map<Generator, int>, k: string)
    requires Generators(m) <= c0.Keys
    requires Elems(order) <= m.Keys && k in m
    ensures Elems(order + [k]) == Elems(order) + {k}
    ensures m[k].SeqFn? ==> m[k].gen in Generators(m)
    ensures m[k].SeqFn? ==>
      var (r, c) := Run(m, order, c0);
      var g := m[k].gen;
      Run(m, order + [k], c0) == (r[k := Output(g, c[g])], c[g := c[g] + 1])
    ensures !m[k].SeqFn? ==> Run(m, order + [k], c0) == Run(m, order, c0)
  {
    assert (order + [k])[..|order|] == order;
    assert Elems(order + [k]) == Elems(order) + {k};
  }

  /** Once every key has been visited exactly once, the object is resolved
      and every generator has been called once per key that holds it. */
  lemma RunComplete(m: Attrs, order: seq<string>, c0: map<Generator, int>)
    requires Generators(m) <= c0.Keys
    requires Elems(order) == m.Keys && NoDup(order)
    ensures Resolved(m, Run(m, order, c0).0, Slots(m, order), c0)
    ensures forall g | g in Generators(m) :: Run(m, order, c0).1[g] == c0[g] + Uses(m, g)
  {
    RunInvariant(m, order, c0);
    assert Elems(order) == m.Keys;
    ResolvedAtEnd(m, Run(m, order, c0).0, Slots(m, order), c0);
  }

  /** One pass of the `executeSequences` loop: call the value under `k` if
      it is flagged, and store the result in its place. */
  method VisitKey(dst: Bag, k: string, ghost m: Attrs, ghost c0: map<Generator, int>, ghost order: seq<string>)
    requires Generators(m) <= c0.Keys && Elems(order) <= m.Keys && k in m && k !in Elems(order)
    requires dst.attrs == Run(m, order, c0).0
    requires forall g | g in Generators(m) :: g.counter == Run(m, order, c0).1[g]
    modifies dst, Generators(m)
    ensures Elems(order + [k]) == Elems(order) + {k}
    ensures dst.attrs == Run(m, order + [k], c0).0
    ensures forall g | g in Generators(m) :: g.counter == Run(m, order + [k], c0).1[g]
  {
    RunKeeps(m, order, c0, k);
    RunSnoc(m, order, c0, k);
    if dst.attrs[k].SeqFn? {
      var g := dst.attrs[k].gen;
      var v := g.Call();
      dst.attrs := dst.attrs[k := v];
    }
  }

  /** `executeSequences(dst)`: every flagged value is replaced by the result
      of calling it once. Keys are visited in an unspecified order. */
  method ExecuteSequences(dst: Bag) returns (ghost slot: map<string, nat>)
    requires NoNullish(dst.attrs)
    modifies dst, Generators(dst.attrs)
    ensures Resolved(old(dst.attrs), dst.attrs, slot, old(Counters(dst.attrs)))
    ensures forall g | g in old(Generators(dst.attrs)) ::
      g.counter == old(g.counter) + Uses(old(dst.attrs), g)
  {
    ghost var m := dst.attrs;
    ghost var c0 := Counters(m);
    ghost var order: seq<string> := [];
    var todo := dst.attrs.Keys;
    while todo != {}
      invariant Elems(order) <= m.Keys && todo == m.Keys - Elems(order) && NoDup(order)
      invariant dst.attrs == Run(m, order, c0).0
      invariant forall g | g in Generators(m) :: g.counter == Run(m, order, c0).1[g]
      decreases todo
    {
      var k :| k in todo;
      VisitKey(dst, k, m, c0, order);
      order := order + [k];
      todo := todo - {k};
    }
    assert Elems(order) == m.Keys by {
      forall x | x in m.Keys ensures x in Elems(order) {
        assert x !in todo;
      }
    }
    RunComplete(m, order, c0);
    slot := Slots(m, order);
  }

  /** One pass of the `build` loop: merge an object state, skip a string,
      call a function state with `dst` and merge what it returns. */
  method ApplyState(dst: Bag, e: State)
    requires e != Obj(dst)
    modifies dst
    ensures dst.attrs == old(BuildStep(dst.attrs, e))
  {
    match e {
      case Obj(b) =>
        ExtendOne(dst, Object(b));
      case Ref(_) =>
      case Fn(t) =>
        var r := t(dst.attrs);
        dst.attrs := r.0;
        var part := new Bag(r.1);
        ExtendOne(dst, Object(part));
    }
  }

  /** One pass of the `define` loop: as in `build`, except that a string
      merges in what the table `f` holds under that name. */
  method ApplyDefineState(f: Table, dst: Bag, e: State)
    requires e != Obj(dst) && dst !in TableBags(f)
    modifies dst
    ensures dst.attrs == old(DefineStep(f, dst.attrs, e))
  {
    match e {
      case Ref(n) =>
        assert Get(f, n) != Object(dst);
        ExtendOne(dst, Get(f, n));
      case _ =>
        ApplyState(dst, e);
    }
  }

  /** The `build` loop over an array of states, into a fresh object. */
  method FoldStates(elems: seq<State>) returns (dst: Bag)
    ensures fresh(dst) && dst.attrs == BuildFold(elems)
    ensures unchanged(StateBags(elems))
  {
    dst := new Bag(map[]);
    var i := 0;
    while i < |elems|
      invariant i <= |elems|
      invariant fresh(dst) && dst !in StateBags(elems)
      invariant dst.attrs == BuildFold(elems[..i])
      invariant unchanged(StateBags(elems))
    {
      BuildNext(elems, i, dst);
      i := i + 1;
    }
    assert elems[..i] == elems;
  }

  /** The `define` loop over an array of states, into a fresh object. */
  method FoldDefineStates(f: Table, elems: seq<State>) returns (dst: Bag)
    ensures fresh(dst) && dst.attrs == DefineFold(f, elems)
    ensures unchanged(TableBags(f), StateBags(elems))
  {
    dst := new Bag(map[]);
    var i := 0;
    while i < |elems|
      invariant i <= |elems|
      invariant fresh(dst) && dst !in StateBags(elems) && dst !in TableBags(f)
      invariant dst.attrs == DefineFold(f, elems[..i])
      invariant unchanged(TableBags(f), StateBags(elems))
    {
      DefineNext(f, elems, i, dst);
      i := i + 1;
    }
    assert elems[..i] == elems;
  }

  /** `extend(dst, factories[name], x)` into a fresh object. */
  method MergeOver(f: Table, name: string, x: Operand) returns (dst: Bag)
    ensures fresh(dst) && dst.attrs == Enumerable(Get(f, name)) + Enumerable(x)
    ensures unchanged(TableBags(f), OperandBags([x]))
  {
    dst := new Bag(map[]);
    ExtendOne(dst, Get(f, name));
    ExtendOne(dst, x);
  }

  /** The object `build` assembles before running its sequences. */
  method Assemble(f: Table, name: string, states: Arg<State>) returns (dst: Bag)
    ensures fresh(dst) && dst.attrs == Merged(f, name, states)
    ensures unchanged(TableBags(f), ArgBags(states))
  {
    if IsBlank(states) {
      dst := MergeOver(f, name, Undefined);
    } else if states.Array? {
      dst := FoldStates(states.elems);
    } else {
      dst := MergeOver(f, name, states.x);
    }
  }

  /** The registry. Both tables are updated in place; bags are shared by
      reference. */
  class Registry {
    var factories: Table
    var sequences: map<string, Generator>

    constructor ()
      ensures factories == map[] && sequences == map[]
    {
      factories := map[];
      sequences := map[];
    }

    /** `attributesFor`: the stored entry itself (no copy), undefined for an
        unknown name. */
    function AttributesFor(name: string): (x: Operand)
      reads this
      ensures name in factories ==> x == factories[name]
      ensures name !in factories ==> x == Undefined
    {
      Get(factories, name)
    }

    /** `build`: a fresh object from the stored bag and/or the states, with
        every sequence replaced by one call of it. The tables and the stored
        bags are left alone. */
    method Build(name: string, states: Arg<State>) returns (built: Attrs, ghost slot: map<string, nat>)
      requires NoNullish(Merged(factories, name, states))
      modifies Generators(Merged(factories, name, states))
      ensures Resolved(old(Merged(factories, name, states)), built, slot,
                       old(Counters(Merged(factories, name, states))))
      ensures forall g | g in old(Generators(Merged(factories, name, states))) ::
        g.counter == old(g.counter) + Uses(old(Merged(factories, name, states)), g)
      ensures factories == old(factories) && sequences == old(sequences)
    {
      ghost var m := Merged(factories, name, states);
      ghost var c0 := Counters(m);
      var dst := Assemble(factories, name, states);
      assert dst.attrs == m;
      assert Counters(m) == c0;
      slot := ExecuteSequences(dst);
      built := dst.attrs;
    }

    /** `define`: an array of states is folded into a fresh bag; any other
        value is stored as it is. Any earlier entry is replaced and no
        sequence is called. */
    method Define(name: string, states: Arg<State>)
      modifies this
      ensures sequences == old(sequences)
      ensures states.Plain? ==> factories == old(factories)[name := states.x]
      ensures states.Array? ==>
        && name in factories && factories[name].Object?
        && fresh(factories[name].bag)
        && factories == old(factories)[name := factories[name]]
        && factories[name].bag.attrs == old(DefineFold(factories, states.elems))
    {
      match states
      case Plain(x) =>
        factories := factories[name := x];
      case Array(elems) =>
        ghost var folded := DefineFold(factories, elems);
        var dst := FoldDefineStates(factories, elems);
        assert dst.attrs == folded;
        factories := factories[name := Object(dst)];
    }

    /** `sequence(name, fn, initial)`: installs a fresh generator whose
        counter starts at `initial || 1`. */
    method Sequence(name: string, transform: int -> Value, initial: Option<int>)
      modifies this
      ensures factories == old(factories)
      ensures name in sequences && fresh(sequences[name])
      ensures sequences == old(sequences)[name := sequences[name]]
      ensures sequences[name].counter == Seed(initial) && sequences[name].transform == transform
    {
      var g := new Generator(transform, Seed(initial));
      sequences := sequences[name := g];
    }

    /** `alias(oldName, alias)`: every alias name now holds the very entry
        that `oldName` holds (undefined when it holds none). */
    method Alias(oldName: string, alias: Aliases)
      modifies this
      ensures sequences == old(sequences)
      ensures factories == Aliased(old(factories), AliasNames(alias), old(Get(factories, oldName)))
    {
      ghost var v := Get(factories, oldName);
      match alias
      case Single(a) =>
        factories := factories[a := Get(factories, oldName)];
        assert [a][..0] == [];
      case List(names) =>
        var i := 0;
        while i < |names|
          invariant i <= |names| && sequences == old(sequences)
          invariant factories == Aliased(old(factories), names[..i], v)
          invariant Get(factories, oldName) == v
        {
          factories := factories[names[i] := Get(factories, oldName)];
          assert names[..i + 1][..i] == names[..i];
          i := i + 1;
        }
        assert names[..i] == names;
    }
  }

  /** The second argument of `alias`: one name or an array of names. */
  datatype Aliases = Single(name: string) | List(names: seq<string>)

  function AliasNames(alias: Aliases): seq<string>
  {
    match alias
    case Single(a) => [a]
    case List(names) => names
  }

  /** The table after `factories[n] = v` for each `n` of `names`, in order. */
  function Aliased(f: Table, names: seq<string>, v: Operand): Table
    decreases |names|
  {
    if names == [] then f
    else Aliased(f, names[..|names| - 1], v)[names[|names| - 1] := v]
  }

  /** After `alias`, every alias name holds the entry of the old name, and
      every other name keeps its entry. */
  lemma {:induction false} AliasedAt(f: Table, names: seq<string>, v: Operand, n: string)
    ensures n in names ==> n in Aliased(f, names, v) && Aliased(f, names, v)[n] == v
    ensures n !in names ==> Get(Aliased(f, names, v), n) == Get(f, n)
    decreases |names|
  {
    if names != [] {
      var prev := names[..|names| - 1];
      AliasedAt(f, prev, v, n);
      assert names == prev + [names[|names| - 1]];
    }
  }

  /** An alias shares the stored bag with its original: a change made
      through one name is seen through the other. */
  lemma AliasShares(f: Table, names: seq<string>, oldName: string, a: string)
    requires a in names
    ensures Get(Aliased(f, names, Get(f, oldName)), a) == Get(f, oldName)
    ensures Get(Aliased(f, names, Get(f, oldName)), oldName) == Get(f, oldName)
  {
    AliasedAt(f, names, Get(f, oldName), a);
    AliasedAt(f, names, Get(f, oldName), oldName);
  }

  /** The array elements of `build` with the strings taken out. */
  function WithoutRefs(elems: seq<State>): (r: seq<State>)
    ensures forall e | e in r :: !e.Ref?
    ensures |r| <= |elems|
    decreases |elems|
  {
    if elems == [] then []
    else
      var e := elems[|elems| - 1];
      WithoutRefs(elems[..|elems| - 1]) + (if e.Ref? then [] else [e])
  }

  lemma {:induction false} WithoutRefsBags(elems: seq<State>)
    ensures StateBags(WithoutRefs(elems)) <= StateBags(elems)
    decreases |elems|
  {
    if elems != [] {
      var prev := elems[..|elems| - 1];
      WithoutRefsBags(prev);
      assert StateBags(prev) <= StateBags(elems);
    }
  }

  /** `build` ignores string elements of its array. */
  lemma {:induction false} BuildFoldIgnoresRefs(elems: seq<State>)
    ensures StateBags(WithoutRefs(elems)) <= StateBags(elems)
    ensures BuildFold(elems) == BuildFold(WithoutRefs(elems))
    decreases |elems|
  {
    WithoutRefsBags(elems);
    if elems != [] {
      var n := |elems| - 1;
      var prev := elems[..n];
      var e := elems[n];
      BuildFoldIgnoresRefs(prev);
      var w := WithoutRefs(prev);
      if e.Ref? {
        assert WithoutRefs(elems) == w;
      } else {
        assert WithoutRefs(elems) == w + [e];
        assert (w + [e])[..|w|] == w;
        assert BuildFold(w + [e]) == BuildStep(BuildFold(w), e);
      }
    }
  }

  /** With no string elements, `define` folds its array exactly as `build`
      does. */
  lemma {:induction false} DefineFoldWithoutRefs(f: Table, elems: seq<State>)
    requires forall e | e in elems :: !e.Ref?
    ensures DefineFold(f, elems) == BuildFold(elems)
    decreases |elems|
  {
    if elems != [] {
      var n := |elems| - 1;
      assert elems[n] in elems;
      DefineFoldWithoutRefs(f, elems[..n]);
    }
  }

  /** The properties of each element of an all-object array, in order. */
  ghost function ObjectAttrs(elems: seq<State>): (r: seq<Attrs>)
    requires forall e | e in elems :: e.Obj?
    reads StateBags(elems)
    ensures |r| == |elems|
    ensures forall i | 0 <= i < |elems| :: r[i] == elems[i].bag.attrs
    decreases |elems|
  {
    if elems == [] then []
    else
      var n := |elems| - 1;
      assert elems[n] in elems;
      assert StateBags(elems[..n]) <= StateBags(elems);
      ObjectAttrs(elems[..n]) + [elems[n].bag.attrs]
  }

  /** `build` over an array of objects is the last-wins merge of those
      objects, from an empty object: the stored bag plays no part. */
  lemma {:induction false} BuildFoldObjects(elems: seq<State>)
    requires forall e | e in elems :: e.Obj?
    ensures BuildFold(elems) == MergeAll(map[], ObjectAttrs(elems))
    decreases |elems|
  {
    if elems != [] {
      var n := |elems| - 1;
      var prev := elems[..n];
      assert forall e | e in prev :: e in elems;
      BuildFoldObjects(prev);
      assert ObjectAttrs(elems)[..n] == ObjectAttrs(prev);
    }
  }

  /** `build(name, obj)`: a key of `obj` takes its value from `obj`; any
      other key comes from the stored bag. */
  lemma MergedOverride(f: Table, name: string, states: Arg<State>, k: string)
    requires states.Plain? && !IsBlank(states)
    ensures k in Enumerable(states.x) ==>
      k in Merged(f, name, states) && Merged(f, name, states)[k] == Enumerable(states.x)[k]
    ensures k !in Enumerable(states.x) ==>
      (k in Merged(f, name, states) <==> k in Enumerable(Get(f, name)))
    ensures k !in Enumerable(states.x) && k in Enumerable(Get(f, name)) ==>
      Merged(f, name, states)[k] == Enumerable(Get(f, name))[k]
  {
  }

  /** `build` with blank states copies the stored bag; an unknown name gives
      the empty object. */
  lemma MergedBlank(f: Table, name: string, states: Arg<State>)
    requires IsBlank(states)
    ensures name in f ==> Merged(f, name, states) == Enumerable(f[name])
    ensures name !in f ==> Merged(f, name, states) == map[]
  {
  }

  /** `{0, ..., n - 1}`. */
  function Below(n: nat): (r: set<nat>)
    ensures forall i: nat :: i in r <==> i < n
  {
    if n == 0 then {} else Below(n - 1) + {n - 1}
  }

  lemma {:induction false} BelowSize(n: nat)
    ensures |Below(n)| == n
  {
    if n > 0 {
      var prev := Below(n - 1);
      BelowSize(n - 1);
      assert n - 1 !in prev;
      assert Below(n) == prev + {n - 1};
      assert |prev + {n - 1}| == |prev| + 1;
    }
  }

  /** A map that is one-to-one on `keys` has as many images as keys. */
  lemma {:induction false} InjectiveImageSize(keys: set<string>, slot: map<string, nat>)
    requires keys <= slot.Keys
    requires forall k1, k2 | k1 in keys && k2 in keys && k1 != k2 :: slot[k1] != slot[k2]
    ensures |set k | k in keys :: slot[k]| == |keys|
    decreases |keys|
  {
    if keys != {} {
      var k :| k in keys;
      var rest := keys - {k};
      InjectiveImageSize(rest, slot);
      var img := set j | j in rest :: slot[j];
      assert slot[k] !in img;
      assert (set j | j in keys :: slot[j]) == img + {slot[k]};
    }
  }

  /** After `executeSequences`, the keys that hold generator `g` received
      exactly the calls `0 .. Uses - 1` of it: every call the counter
      advanced over went to one key. */
  lemma ResolvedCallsAll(m: Attrs, r: Attrs, slot: map<string, nat>, c0: map<Generator, int>, g: Generator)
    requires Generators(m) <= c0.Keys
    requires Resolved(m, r, slot, c0)
    ensures (set k | k in m && m[k] == SeqFn(g) :: slot[k]) == Below(Uses(m, g))
  {
    var keys := set k | k in m.Keys && k in m && m[k] == SeqFn(g);
    assert |keys| == Uses(m, g);
    assert keys <= slot.Keys;
    InjectiveImageSize(keys, slot);
    var img := set k | k in keys :: slot[k];
    BelowSize(Uses(m, g));
    assert img <= Below(Uses(m, g));
    SubsetSameSize(img, Below(Uses(m, g)));
    assert (set k | k in m && m[k] == SeqFn(g) :: slot[k]) == img;
  }

  /** A subset as large as its superset is the superset. */
  lemma SubsetSameSize(a: set<nat>, b: set<nat>)
    requires a <= b && |a| == |b|
    ensures a == b
  {
    assert |b - a| == |b| - |a|;
  }

  /** A generator held under a single key is called once, with its counter
      as it was before `build`. */
  lemma ResolvedSingleUse(m: Attrs, r: Attrs, slot: map<string, nat>, c0: map<Generator, int>, k: string)
    requires Generators(m) <= c0.Keys
    requires Resolved(m, r, slot, c0)
    requires k in m && m[k].SeqFn? && Uses(m, m[k].gen) == 1
    ensures k in r && r[k] == Output(m[k].gen, c0[m[k].gen])
  {
    assert k in SeqKeys(m);
    assert k in slot && slot[k] < 1;
  }

  /** An object with one sequence-valued key builds to that object with the
      key replaced by the generator's value at its current counter. */
  lemma ResolvedOneSequence(m: Attrs, r: Attrs, slot: map<string, nat>, c0: map<Generator, int>, k: string)
    requires Generators(m) <= c0.Keys
    requires Resolved(m, r, slot, c0)
    requires SeqKeys(m) == {k}
    ensures k in m && m[k].SeqFn? && m[k].gen in c0
    ensures r == m[k := Output(m[k].gen, c0[m[k].gen])]
  {
    assert k in SeqKeys(m);
    var g := m[k].gen;
    var keys := set j | j in m.Keys && j in m && m[j] == SeqFn(g);
    assert keys == {k} by {
      forall j | j in keys ensures j == k {
        assert j in SeqKeys(m);
      }
    }
    assert Uses(m, g) == 1;
    assert g in Generators(m);
    assert slot[k] == 0;
    forall j | j in m ensures j in r && r[j] == m[k := Output(g, c0[g])][j] {
      if j != k {
        assert j !in SeqKeys(m);
      }
    }
  }

  /** An object with no sequence-valued key builds to itself. */
  lemma ResolvedNoSequences(m: Attrs, r: Attrs, slot: map<string, nat>, c0: map<Generator, int>)
    requires Generators(m) <= c0.Keys
    requires Resolved(m, r, slot, c0)
    requires SeqKeys(m) == {}
    ensures r == m
  {
    forall j | j in m ensures r[j] == m[j] {
      assert j !in SeqKeys(m);
    }
  }
}
