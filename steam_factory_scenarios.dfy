/** Concrete SteamFactory sessions, each following one of the repository's
    own usage examples, with the outcome proved from the registry's
    contracts. */
module SteamFactoryScenarios {
  import opened Objects
  import opened SteamFactory

  /** JavaScript's `"" + n` for an integer. */
  function IntText(n: int): string
  {
    if n >= 0 then DecimalDigits(n) else "-" + DecimalDigits(-n)
  }

  /** The sequence transform of the examples: `n => "email" + n + "@gmail.com"`. */
  function Email(n: int): Value
  {
    Str("email" + IntText(n) + "@gmail.com")
  }

  /** The stored user of the sequence examples holds one generator, under
      "email". */
  lemma UserWithEmail(g: Generator)
    ensures var m := map["name" := Str("pedro"), "email" := SeqFn(g)];
      && SeqKeys(m) == {"email"} && Generators(m) == {g} && NoNullish(m)
      && Counters(m) == map[g := g.counter] && Uses(m, g) == 1
  {
    var m := map["name" := Str("pedro"), "email" := SeqFn(g)];
    assert m.Keys == {"name", "email"};
    assert SeqKeys(m) == {"email"};
    assert Generators(m) == {g};
    assert (set k | k in m.Keys && k in m && m[k] == SeqFn(g)) == {"email"};
  }

  /** `build("user")` where the stored user holds a sequence under "email":
      the sequence is called once. */
  method BuildUser(reg: Registry, user: Bag, g: Generator) returns (built: Attrs)
    requires "user" in reg.factories && reg.factories["user"] == Object(user)
    requires user.attrs == map["name" := Str("pedro"), "email" := SeqFn(g)]
    modifies g
    ensures built == map["name" := Str("pedro"), "email" := Output(g, old(g.counter))]
    ensures g.counter == old(g.counter) + 1
    ensures user.attrs == old(user.attrs) && reg.factories == old(reg.factories)
  {
    ghost var m := user.attrs;
    UserWithEmail(g);
    MergedBlank(reg.factories, "user", Plain(Undefined));
    assert Merged(reg.factories, "user", Plain(Undefined)) == m;
    ghost var slot;
    built, slot := reg.Build("user", Plain(Undefined));
    ResolvedOneSequence(m, built, slot, old(Counters(m)), "email");
  }

  /** A factory holding a sequence: two builds give `email1@gmail.com` and
      then `email2@gmail.com`, and other properties are copied. */
  method EmailSequence() returns (first: Attrs, second: Attrs)
    ensures first == map["name" := Str("pedro"), "email" := Email(1)]
    ensures second == map["name" := Str("pedro"), "email" := Email(2)]
  {
    var reg := new Registry();
    reg.Sequence("email", Email, None);
    var g := reg.sequences["email"];
    var user := new Bag(map["name" := Str("pedro"), "email" := SeqFn(g)]);
    reg.Define("user", Plain(Object(user)));
    first := BuildUser(reg, user, g);
    second := BuildUser(reg, user, g);
  }

  lemma OverrideMerge()
    ensures var m := map["name" := Str("pedro"), "lastName" := Str("andersen")];
      && map["name" := Str("pedro"), "lastName" := Str("del gallego")] + map["lastName" := Str("andersen")] == m
      && SeqKeys(m) == {} && Generators(m) == {} && NoNullish(m)
  {
    var m := map["name" := Str("pedro"), "lastName" := Str("andersen")];
    assert m.Keys == {"name", "lastName"};
  }

  lemma ValidUserMerge()
    ensures map["name" := Str("pedro")] + map["confirmed" := Bool(true)]
      == map["name" := Str("pedro"), "confirmed" := Bool(true)]
  {
  }

  /** `build("user", {lastName: "andersen"})` over a stored
      `{name: "pedro", lastName: "del gallego"}`: the override wins. */
  method BuildOverride() returns (user: Attrs)
    ensures user == map["name" := Str("pedro"), "lastName" := Str("andersen")]
  {
    var reg := new Registry();
    var stored := new Bag(map["name" := Str("pedro"), "lastName" := Str("del gallego")]);
    reg.Define("user", Plain(Object(stored)));
    var over := new Bag(map["lastName" := Str("andersen")]);
    ghost var m := map["name" := Str("pedro"), "lastName" := Str("andersen")];
    OverrideMerge();
    assert Merged(reg.factories, "user", Plain(Object(over))) == m;
    ghost var slot;
    user, slot := reg.Build("user", Plain(Object(over)));
    ResolvedNoSequences(m, user, slot, map[]);
  }

  /** An array of two names merges the two stored bags, the second winning. */
  lemma DefineFoldTwoRefs(f: Table, a: string, b: string)
    ensures DefineFold(f, [Ref(a), Ref(b)]) == Enumerable(Get(f, a)) + Enumerable(Get(f, b))
  {
    var refs := [Ref(a), Ref(b)];
    assert refs[..1] == [Ref(a)] && refs[..1][..0] == [];
    assert DefineFold(f, refs[..1]) == Enumerable(Get(f, a));
  }

  /** `define("validUser", ["user", "confirmedUser"])` merges the two stored
      bags, and `attributesFor("validUser")` returns the result. */
  method ValidUser() returns (valid: Operand)
    ensures valid.Object?
    ensures valid.bag.attrs == map["name" := Str("pedro"), "confirmed" := Bool(true)]
  {
    var reg := new Registry();
    var user := new Bag(map["name" := Str("pedro")]);
    var confirmed := new Bag(map["confirmed" := Bool(true)]);
    reg.Define("user", Plain(Object(user)));
    reg.Define("confirmedUser", Plain(Object(confirmed)));
    ghost var f := reg.factories;
    var refs := [Ref("user"), Ref("confirmedUser")];
    assert Get(f, "user") == Object(user) && Get(f, "confirmedUser") == Object(confirmed);
    DefineFoldTwoRefs(f, "user", "confirmedUser");
    ghost var expected := DefineFold(f, refs);
    ValidUserMerge();
    reg.Define("validUser", Array(refs));
    assert reg.factories["validUser"].bag.attrs == expected;
    valid := reg.AttributesFor("validUser");
  }

  /** `alias("user", ["author", "commenter"])`: all three names hold the
      same bag. */
  method AliasList() returns (user: Operand, author: Operand, commenter: Operand)
    ensures user.Object? && author == user && commenter == user
  {
    var reg := new Registry();
    var stored := new Bag(map["name" := Str("pedro")]);
    reg.Define("user", Plain(Object(stored)));
    ghost var f := reg.factories;
    reg.Alias("user", List(["author", "commenter"]));
    AliasShares(f, ["author", "commenter"], "user", "author");
    AliasShares(f, ["author", "commenter"], "user", "commenter");
    user := reg.AttributesFor("user");
    author := reg.AttributesFor("author");
    commenter := reg.AttributesFor("commenter");
  }

  /** A sequence counts from 1; registering it again with 100 restarts it
      at 100. */
  method SequenceRestart() returns (a: Value, b: Value, c: Value)
    ensures a == Email(1) && b == Email(2) && c == Email(100)
  {
    var reg := new Registry();
    reg.Sequence("email", Email, None);
    var g := reg.sequences["email"];
    a := g.Call();
    b := g.Call();
    reg.Sequence("email", Email, Some(100));
    var h := reg.sequences["email"];
    c := h.Call();
  }
}
