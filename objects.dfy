/** The JavaScript objects both factory modules work on: attribute bags
    (objects whose properties are updated in place), the values stored in
    them, and the `extend` helper that shallow-merges bags. */
module Objects {

  datatype Option<T> = None | Some(value: T)

  /** An attribute value. Nested objects and functions that carry no
      sequence flag are opaque: the factories copy them and never look inside. */
  datatype Value =
    | Str(s: string)
    | Num(n: int)
    | Bool(b: bool)
    | Nullish                 // null or undefined
    | Opaque(id: nat)         // a nested object or an unflagged function
    | SeqFn(gen: Generator)   // a function flagged `isSteamFactorySequence`

  /** The own enumerable properties of an object. */
  type Attrs = map<string, Value>

  /** The closure built by SteamFactory's `sequence`: a counter (`memo`)
      and the user's transform. Each call returns the transform of the
      counter and then increments it. */
  class Generator {
    var counter: int
    const transform: int -> Value

    constructor (transform: int -> Value, start: int)
      ensures this.transform == transform && counter == start
    {
      this.transform := transform;
      counter := start;
    }

    method Call() returns (v: Value)
      modifies this
      ensures v == transform(old(counter))
      ensures counter == old(counter) + 1
    {
      v := transform(counter);
      counter := counter + 1;
    }
  }

  /** A plain object: the unit of sharing. A factory table may hold the
      same bag under several names. */
  class Bag {
    var attrs: Attrs

    constructor (attrs: Attrs)
      ensures this.attrs == attrs
    {
      this.attrs := attrs;
    }
  }

  /** A non-array argument or table entry. */
  datatype Operand = Undefined | Null | Text(s: string) | Object(bag: Bag)

  /** The `states` argument of `build` and `define`: either a single value
      or an array of state elements of type E. */
  datatype Arg<E> = Plain(x: Operand) | Array(elems: seq<E>)

  /** A factory table: name to stored operand. */
  type Table = map<string, Operand>

  /** `table[name]`: undefined for a name that is not there. */
  function Get(f: Table, name: string): Operand
  {
    if name in f then f[name] else Undefined
  }

  function TableBags(f: Table): set<Bag>
  {
    set n | n in f && f[n].Object? :: f[n].bag
  }

  function OperandBags(xs: seq<Operand>): set<Bag>
  {
    set x | x in xs && x.Object? :: x.bag
  }

  /** The decimal text of `n`, as `"" + n` writes it. */
  function DecimalDigits(n: nat): string
  {
    if n < 10 then ["0123456789"[n]] else DecimalDigits(n / 10) + ["0123456789"[n % 10]]
  }

  /** One digit below ten, more from ten on; the last digit is `n % 10`. */
  lemma DecimalDigitsShape(n: nat)
    ensures 1 <= |DecimalDigits(n)| && (n < 10 <==> |DecimalDigits(n)| == 1)
    ensures DecimalDigits(n)[|DecimalDigits(n)| - 1] == "0123456789"[n % 10]
  {
    if n >= 10 {
      DecimalDigitsShape(n / 10);
    }
  }

  /** Different numbers have different decimal texts. */
  lemma {:induction false} DecimalDigitsInjective(a: nat, b: nat)
    requires DecimalDigits(a) == DecimalDigits(b)
    ensures a == b
    decreases a
  {
    DecimalDigitsShape(a);
    DecimalDigitsShape(b);
    var da, db := DecimalDigits(a), DecimalDigits(b);
    assert "0123456789"[a % 10] == da[|da| - 1] == "0123456789"[b % 10];
    assert a % 10 == b % 10;
    if a >= 10 {
      assert da[..|da| - 1] == DecimalDigits(a / 10);
      assert db[..|db| - 1] == DecimalDigits(b / 10);
      DecimalDigitsInjective(a / 10, b / 10);
    }
  }

  /** The properties `for (key in s)` visits on a string, one per index. */
  function IndexObject(s: string): Attrs
    decreases |s|
  {
    if s == [] then map[]
    else IndexObject(s[..|s| - 1])[DecimalDigits(|s| - 1) := Str([s[|s| - 1]])]
  }

  /** The keys of `IndexObject(s)` are exactly the indices of `s` written in
      decimal, and each holds the one-character string at that index. */
  lemma {:induction false} IndexObjectAt(s: string)
    ensures forall i: nat | i < |s| :: DecimalDigits(i) in IndexObject(s) && IndexObject(s)[DecimalDigits(i)] == Str([s[i]])
    ensures forall k | k in IndexObject(s) :: exists i: nat | i < |s| :: k == DecimalDigits(i)
    decreases |s|
  {
    if s != [] {
      var n := |s| - 1;
      var t := s[..n];
      IndexObjectAt(t);
      var prev := IndexObject(t);
      assert IndexObject(s) == prev[DecimalDigits(n) := Str([s[n]])];
      forall i: nat | i < |s| ensures DecimalDigits(i) in IndexObject(s) && IndexObject(s)[DecimalDigits(i)] == Str([s[i]]) {
        if i < n {
          if DecimalDigits(i) == DecimalDigits(n) {
            DecimalDigitsInjective(i, n);
          }
          assert t[i] == s[i];
        }
      }
      forall k | k in IndexObject(s) ensures exists i: nat | i < |s| :: k == DecimalDigits(i) {
        if k in prev {
          var i: nat :| i < n && k == DecimalDigits(i);
          assert i < |s| && k == DecimalDigits(i);
        } else {
          assert n < |s| && k == DecimalDigits(n);
        }
      }
    }
  }

  /** What `for (key in x) dst[key] = x[key]` copies out of an operand:
      nothing from undefined or null, one property per index of a string,
      the own properties of an object. */
  function Enumerable(x: Operand): (r: Attrs)
    reads if x.Object? then {x.bag} else {}
    ensures x.Undefined? || x.Null? ==> r == map[]
    ensures x.Text? ==> forall i: nat | i < |x.s| :: DecimalDigits(i) in r && r[DecimalDigits(i)] == Str([x.s[i]])
    ensures x.Object? ==> r == x.bag.attrs
  {
    match x
    case Undefined => map[]
    case Null => map[]
    case Text(s) => IndexObjectAt(s); IndexObject(s)
    case Object(b) => b.attrs
  }

  /** Last-write-wins shallow merge of `srcs`, in order, over `base`. */
  function MergeAll(base: Attrs, srcs: seq<Attrs>): Attrs
    decreases |srcs|
  {
    if srcs == [] then base
    else MergeAll(base, srcs[..|srcs| - 1]) + srcs[|srcs| - 1]
  }

  /** A key that some source has ends up with the value of the last source
      that has it. */
  lemma {:induction false} MergeAllLastWins(base: Attrs, srcs: seq<Attrs>, j: nat, k: string)
    requires j < |srcs| && k in srcs[j]
    requires forall i | j < i < |srcs| :: k !in srcs[i]
    ensures k in MergeAll(base, srcs) && MergeAll(base, srcs)[k] == srcs[j][k]
  {
    var n := |srcs| - 1;
    if j < n {
      MergeAllLastWins(base, srcs[..n], j, k);
    }
  }

  /** A key that no source has keeps its old value, or stays absent. */
  lemma {:induction false} MergeAllUntouched(base: Attrs, srcs: seq<Attrs>, k: string)
    requires forall i | 0 <= i < |srcs| :: k !in srcs[i]
    ensures k in MergeAll(base, srcs) <==> k in base
    ensures k in base ==> MergeAll(base, srcs)[k] == base[k]
  {
    if srcs != [] {
      MergeAllUntouched(base, srcs[..|srcs| - 1], k);
    }
  }

  /** What one argument of `extend` contributes: nothing when it is the
      destination object itself, its enumerable properties otherwise. */
  function Contribution(dst: Bag, x: Operand): Attrs
    reads if x.Object? && x.bag != dst then {x.bag} else {}
  {
    if x == Object(dst) then map[] else Enumerable(x)
  }

  function Sources(dst: Bag, srcs: seq<Operand>): (r: seq<Attrs>)
    reads OperandBags(srcs)
    ensures |r| == |srcs|
    decreases |srcs|
  {
    if srcs == [] then []
    else Sources(dst, srcs[..|srcs| - 1]) + [Contribution(dst, srcs[|srcs| - 1])]
  }

  lemma {:induction false} SourcesAt(dst: Bag, srcs: seq<Operand>, i: nat)
    requires i < |srcs|
    ensures Sources(dst, srcs)[i] == Contribution(dst, srcs[i])
  {
    var n := |srcs| - 1;
    if n > 0 {
      SourcesAt(dst, srcs[..n], if i < n then i else 0);
    }
  }

  /** The inner loop of `extend`: `for (key in obj) dst[key] = obj[key]`.
      Keys are visited in an unspecified order. */
  method CopyProperties(dst: Bag, obj: Attrs)
    modifies dst
    ensures dst.attrs == old(dst.attrs) + obj
  {
    var keys := obj.Keys;
    ghost var done: set<string> := {};
    while keys != {}
      invariant keys + done == obj.Keys && keys !! done
      invariant dst.attrs == old(dst.attrs) + map k | k in done :: obj[k]
      decreases keys
    {
      var key :| key in keys;
      dst.attrs := dst.attrs[key := obj[key]];
      keys := keys - {key};
      done := done + {key};
    }
    assert (map k | k in done :: obj[k]) == obj;
  }

  /** `extend(dst, s1, ..., sn)`: copies the properties of every source
      that is not `dst` itself into `dst`, in order. */
  method Extend(dst: Bag, srcs: seq<Operand>)
    modifies dst
    ensures dst.attrs == MergeAll(old(dst.attrs), old(Sources(dst, srcs)))
  {
    ghost var contributions := Sources(dst, srcs);
    forall j | 0 <= j < |srcs| ensures contributions[j] == Contribution(dst, srcs[j]) {
      SourcesAt(dst, srcs, j);
    }
    var i := 0;
    while i < |srcs|
      invariant i <= |srcs|
      invariant forall j | i <= j < |srcs| :: contributions[j] == Contribution(dst, srcs[j])
      invariant dst.attrs == MergeAll(old(dst.attrs), contributions[..i])
    {
      var src := srcs[i];
      if src != Object(dst) {
        CopyProperties(dst, Enumerable(src));
      }
      assert contributions[..i + 1] == contributions[..i] + [contributions[i]];
      i := i + 1;
    }
    assert contributions[..i] == contributions;
  }

  /** `extend(dst, x)` with a single source that is not `dst`. */
  method ExtendOne(dst: Bag, x: Operand)
    requires x != Object(dst)
    modifies dst
    ensures dst.attrs == old(dst.attrs) + old(Enumerable(x))
  {
    ghost var c := Sources(dst, [x]);
    SourcesAt(dst, [x], 0);
    assert c[..0] == [];
    Extend(dst, [x]);
  }

  /** The `extend` promise, per key: a key that a non-`dst` source has
      takes the value of the last such source. */
  lemma ExtendLastWins(dst: Bag, base: Attrs, srcs: seq<Operand>, j: nat, k: string)
    requires j < |srcs| && srcs[j] != Object(dst) && k in Enumerable(srcs[j])
    requires forall i | j < i < |srcs| && srcs[i] != Object(dst) :: k !in Enumerable(srcs[i])
    ensures k in MergeAll(base, Sources(dst, srcs))
    ensures MergeAll(base, Sources(dst, srcs))[k] == Enumerable(srcs[j])[k]
  {
    var c := Sources(dst, srcs);
    SourcesAt(dst, srcs, j);
    forall i | j < i < |srcs| ensures k !in c[i] {
      SourcesAt(dst, srcs, i);
    }
    MergeAllLastWins(base, c, j, k);
  }

  /** The `extend` promise, per key: a key that no source other than
      `dst` has keeps its value in `dst`. */
  lemma ExtendUntouched(dst: Bag, base: Attrs, srcs: seq<Operand>, k: string)
    requires forall i | 0 <= i < |srcs| && srcs[i] != Object(dst) :: k !in Enumerable(srcs[i])
    ensures k in MergeAll(base, Sources(dst, srcs)) <==> k in base
    ensures k in base ==> MergeAll(base, Sources(dst, srcs))[k] == base[k]
  {
    var c := Sources(dst, srcs);
    forall i | 0 <= i < |srcs| ensures k !in c[i] {
      SourcesAt(dst, srcs, i);
    }
    MergeAllUntouched(base, c, k);
  }
}
