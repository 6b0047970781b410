/** Malyshev: the older factory registry. One table (`objs`) of named
    attribute bags, with `define`, `build` and `attributesFor`; no sequences,
    and function states are called with no arguments. */
module Malyshev {
  import opened Objects

  /** An element of a `states` array: an object, a string (a factory name),
      or a function called with no arguments whose result is merged in (the
      empty map when it returns nothing). */
  datatype State = Obj(bag: Bag) | Ref(name: string) | Fn(thunk: () -> Attrs)

  ghost function StateBags(elems: seq<State>): set<Bag>
  {
    set e | e in elems && e.Obj? :: e.bag
  }

  ghost function ArgBags(states: Arg<State>): set<Bag>
  {
    match states
    case Plain(x) => if x.Object? then {x.bag} else {}
    case Array(elems) => StateBags(elems)
  }

  /** One step of the `build` loop: strings are ignored. */
  function BuildStep(acc: Attrs, e: State): Attrs
    reads if e.Obj? then {e.bag} else {}
  {
    match e
    case Obj(b) => acc + b.attrs
    case Ref(_) => acc
    case Fn(t) => acc + t()
  }

  /** Pass `i` of the `build` loop, over the prefix folded so far. */
  method BuildNext(elems: seq<State>, i: nat, dst: Bag)
    requires i < |elems| && dst !in StateBags(elems)
    requires dst.attrs == BuildFold(elems[..i])
    modifies dst
    ensures dst.attrs == BuildFold(elems[..i + 1])
    ensures unchanged(StateBags(elems))
  {
    assert elems[i] in elems;
    assert StateBags(elems[..i + 1]) <= StateBags(elems);
    assert elems[..i + 1][..i] == elems[..i];
    ghost var next := BuildFold(elems[..i + 1]);
    assert next == BuildStep(dst.attrs, elems[i]);
    ApplyState(dst, elems[i]);
    assert dst.attrs == next;
  }

  /** Pass `i` of the `define` loop, over the prefix folded so far. */
  method DefineNext(f: Table, elems: seq<State>, i: nat, dst: Bag)
    requires i < |elems| && dst !in StateBags(elems) && dst !in TableBags(f)
    requires dst.attrs == DefineFold(f, elems[..i])
    modifies dst
    ensures dst.attrs == DefineFold(f, elems[..i + 1])
    ensures unchanged(TableBags(f), StateBags(elems))
  {
    assert elems[i] in elems;
    assert StateBags(elems[..i + 1]) <= StateBags(elems);
    assert elems[..i + 1][..i] == elems[..i];
    ghost var next := DefineFold(f, elems[..i + 1]);
    assert next == DefineStep(f, dst.attrs, elems[i]);
    ApplyDefineState(f, dst, elems[i]);
    assert dst.attrs == next;
  }

  /** The `build` loop over an array, from an empty object. */
  function BuildFold(elems: seq<State>): Attrs
    reads StateBags(elems)
    decreases |elems|
  {
    if elems == [] then map[]
    else BuildStep(BuildFold(elems[..|elems| - 1]), elems[|elems| - 1])
  }

  /** One step of the `define` loop: a string merges in the bag the table
      holds under that name. */
  function DefineStep(f: Table, acc: Attrs, e: State): Attrs
    reads TableBags(f), if e.Obj? then {e.bag} else {}
  {
    match e
    case Ref(n) => acc + Enumerable(Get(f, n))
    case _ => BuildStep(acc, e)
  }

  function DefineFold(f: Table, elems: seq<State>): Attrs
    reads TableBags(f), StateBags(elems)
    decreases |elems|
  {
    if elems == [] then map[]
    else DefineStep(f, DefineFold(f, elems[..|elems| - 1]), elems[|elems| - 1])
  }

  /** What `build(name, states)` returns: an array is folded on its own;
      anything else is merged over the stored bag. */
  function Built(f: Table, name: string, states: Arg<State>): Attrs
    reads TableBags(f), ArgBags(states)
  {
    if states.Array? then BuildFold(states.elems)
    else Enumerable(Get(f, name)) + Enumerable(states.x)
  }

  /** One pass of the `build` loop. */
  method ApplyState(dst: Bag, e: State)
    requires e != Obj(dst)
    modifies dst
    ensures dst.attrs == old(BuildStep(dst.attrs, e))
  {
    match e {
      case Obj(b) =>
        ExtendOne(dst, Object(b));
      case Ref(_) =>
      case Fn(t) =>
        var part := new Bag(t());
        ExtendOne(dst, Object(part));
    }
  }

  /** One pass of the `define` loop over the table `f`. */
  method ApplyDefineState(f: Table, dst: Bag, e: State)
    requires e != Obj(dst) && dst !in TableBags(f)
    modifies dst
    ensures dst.attrs == old(DefineStep(f, dst.attrs, e))
  {
    match e {
      case Ref(n) =>
        assert Get(f, n) != Object(dst);
        ExtendOne(dst, Get(f, n));
      case _ =>
        ApplyState(dst, e);
    }
  }

  /** The `build` loop over an array, into a fresh object. */
  method FoldStates(elems: seq<State>) returns (dst: Bag)
    ensures fresh(dst) && dst.attrs == BuildFold(elems)
    ensures unchanged(StateBags(elems))
  {
    dst := new Bag(map[]);
    var i := 0;
    while i < |elems|
      invariant i <= |elems|
      invariant fresh(dst) && dst !in StateBags(elems)
      invariant dst.attrs == BuildFold(elems[..i])
      invariant unchanged(StateBags(elems))
    {
      BuildNext(elems, i, dst);
      i := i + 1;
    }
    assert elems[..i] == elems;
  }

  /** The `define` loop over an array, into a fresh object. */
  method FoldDefineStates(f: Table, elems: seq<State>) returns (dst: Bag)
    ensures fresh(dst) && dst.attrs == DefineFold(f, elems)
    ensures unchanged(TableBags(f), StateBags(elems))
  {
    dst := new Bag(map[]);
    var i := 0;
    while i < |elems|
      invariant i <= |elems|
      invariant fresh(dst) && dst !in StateBags(elems) && dst !in TableBags(f)
      invariant dst.attrs == DefineFold(f, elems[..i])
      invariant unchanged(TableBags(f), StateBags(elems))
    {
      DefineNext(f, elems, i, dst);
      i := i + 1;
    }
    assert elems[..i] == elems;
  }

  /** The registry: the `objs` table, updated in place; bags are shared by
      reference. */
  class Registry {
    var objs: Table

    constructor ()
      ensures objs == map[]
    {
      objs := map[];
    }

    /** `attributesFor`: the stored entry itself, undefined for an unknown
        name. */
    function AttributesFor(name: string): (x: Operand)
      reads this
      ensures name in objs ==> x == objs[name]
      ensures name !in objs ==> x == Undefined
    {
      Get(objs, name)
    }

    /** `build`: a fresh object; nothing that exists is changed, and values
        are copied as they are (no sequence is called). */
    method Build(name: string, states: Arg<State>) returns (built: Attrs)
      ensures built == Built(objs, name, states)
    {
      var dst := new Bag(map[]);
      if states.Plain? && states.x.Undefined? && states.x.Null? {
        // `states === undefined && states === null` never holds.
        assert false;
      } else if !states.Array? {
        ExtendOne(dst, Get(objs, name));
        ExtendOne(dst, states.x);
      } else {
        dst := FoldStates(states.elems);
      }
      built := dst.attrs;
    }

    /** `define`: an array of states is folded into a fresh bag; any other
        value is stored as it is. Any earlier entry is replaced. */
    method Define(name: string, states: Arg<State>)
      modifies this
      ensures states.Plain? ==> objs == old(objs)[name := states.x]
      ensures states.Array? ==>
        && name in objs && objs[name].Object?
        && fresh(objs[name].bag)
        && objs == old(objs)[name := objs[name]]
        && objs[name].bag.attrs == old(DefineFold(objs, states.elems))
    {
      match states
      case Plain(x) =>
        objs := objs[name := x];
      case Array(elems) =>
        ghost var folded := DefineFold(objs, elems);
        var dst := FoldDefineStates(objs, elems);
        assert dst.attrs == folded;
        objs := objs[name := Object(dst)];
    }
  }

  /** `build(name)` with no states (undefined, and likewise null) copies the
      stored bag, through the second branch: the same object the unreachable
      first branch was meant to give. */
  lemma BuiltNoStates(f: Table, name: string)
    ensures Built(f, name, Plain(Undefined)) == Enumerable(Get(f, name))
    ensures Built(f, name, Plain(Null)) == Enumerable(Get(f, name))
    ensures name !in f ==> Built(f, name, Plain(Undefined)) == map[]
  {
    assert Enumerable(Get(f, name)) + map[] == Enumerable(Get(f, name));
  }

  /** `build(name, obj)`: a key of `obj` takes its value from `obj`; any
      other key comes from the stored bag. */
  lemma BuiltOverride(f: Table, name: string, states: Arg<State>, k: string)
    requires states.Plain?
    ensures k in Enumerable(states.x) ==>
      k in Built(f, name, states) && Built(f, name, states)[k] == Enumerable(states.x)[k]
    ensures k !in Enumerable(states.x) ==>
      (k in Built(f, name, states) <==> k in Enumerable(Get(f, name)))
    ensures k !in Enumerable(states.x) && k in Enumerable(Get(f, name)) ==>
      Built(f, name, states)[k] == Enumerable(Get(f, name))[k]
  {
  }

  /** `build` with an array never looks at the table: the stored bag plays no
      part, and an empty array gives the empty object. */
  lemma BuiltArrayIgnoresTable(f: Table, g: Table, name: string, other: string, elems: seq<State>)
    ensures Built(f, name, Array(elems)) == Built(g, other, Array(elems))
    ensures elems == [] ==> Built(f, name, Array(elems)) == map[]
  {
  }

  /** The array elements of `build` with the strings taken out. */
  function WithoutRefs(elems: seq<State>): (r: seq<State>)
    ensures forall e | e in r :: !e.Ref?
    ensures |r| <= |elems|
    decreases |elems|
  {
    if elems == [] then []
    else
      var e := elems[|elems| - 1];
      WithoutRefs(elems[..|elems| - 1]) + (if e.Ref? then [] else [e])
  }

  lemma {:induction false} WithoutRefsBags(elems: seq<State>)
    ensures StateBags(WithoutRefs(elems)) <= StateBags(elems)
    decreases |elems|
  {
    if elems != [] {
      var prev := elems[..|elems| - 1];
      WithoutRefsBags(prev);
      assert StateBags(prev) <= StateBags(elems);
    }
  }

  /** `build` ignores the string elements of its array: it gives the same
      object with or without them. */
  lemma {:induction false} BuildFoldIgnoresRefs(elems: seq<State>)
    ensures StateBags(WithoutRefs(elems)) <= StateBags(elems)
    ensures BuildFold(elems) == BuildFold(WithoutRefs(elems))
    decreases |elems|
  {
    WithoutRefsBags(elems);
    if elems != [] {
      var n := |elems| - 1;
      var prev := elems[..n];
      var e := elems[n];
      BuildFoldIgnoresRefs(prev);
      var w := WithoutRefs(prev);
      if e.Ref? {
        assert WithoutRefs(elems) == w;
      } else {
        assert WithoutRefs(elems) == w + [e];
        assert (w + [e])[..|w|] == w;
        assert BuildFold(w + [e]) == BuildStep(BuildFold(w), e);
      }
    }
  }

  /** `build` with an array of objects is the last-wins merge of those
      objects. */
  ghost function ObjectAttrs(elems: seq<State>): (r: seq<Attrs>)
    requires forall e | e in elems :: e.Obj?
    reads StateBags(elems)
    ensures |r| == |elems|
    ensures forall i | 0 <= i < |elems| :: r[i] == elems[i].bag.attrs
    decreases |elems|
  {
    if elems == [] then []
    else
      var n := |elems| - 1;
      assert elems[n] in elems;
      assert StateBags(elems[..n]) <= StateBags(elems);
      ObjectAttrs(elems[..n]) + [elems[n].bag.attrs]
  }

  lemma {:induction false} BuildFoldObjects(elems: seq<State>)
    requires forall e | e in elems :: e.Obj?
    ensures BuildFold(elems) == MergeAll(map[], ObjectAttrs(elems))
    decreases |elems|
  {
    if elems != [] {
      var n := |elems| - 1;
      var prev := elems[..n];
      assert forall e | e in prev :: e in elems;
      BuildFoldObjects(prev);
      assert ObjectAttrs(elems)[..n] == ObjectAttrs(prev);
    }
  }

  /** With no string elements, `define` folds its array exactly as `build`
      does. */
  lemma {:induction false} DefineFoldWithoutRefs(f: Table, elems: seq<State>)
    requires forall e | e in elems :: !e.Ref?
    ensures DefineFold(f, elems) == BuildFold(elems)
    decreases |elems|
  {
    if elems != [] {
      var n := |elems| - 1;
      assert elems[n] in elems;
      DefineFoldWithoutRefs(f, elems[..n]);
    }
  }
}
