/** Concrete Malyshev sessions following the repository's usage examples. */
module MalyshevScenarios {
  import opened Objects
  import opened Malyshev

  /** A function state followed by an object state. */
  lemma FoldFnThenObj(t: () -> Attrs, b: Bag)
    ensures BuildFold([Fn(t), Obj(b)]) == t() + b.attrs
  {
    var states := [Fn(t), Obj(b)];
    assert states[..1] == [Fn(t)] && states[..1][..0] == [];
    assert BuildFold(states[..1]) == t();
  }

  lemma ArrayMerge()
    ensures map["type" := Str("user")] + map["name" := Str("pedro")]
      == map["type" := Str("user"), "name" := Str("pedro")]
  {
  }

  /** `build("user", [() => ({type: "user"}), {name: "pedro"}])` over a
      stored `{name: "other", admin: true}`: the function's result and the
      object are merged, and the stored bag is not used. */
  method BuildFromArray() returns (user: Attrs)
    ensures user == map["type" := Str("user"), "name" := Str("pedro")]
  {
    var reg := new Registry();
    var stored := new Bag(map["name" := Str("other"), "admin" := Bool(true)]);
    reg.Define("user", Plain(Object(stored)));
    var pedro := new Bag(map["name" := Str("pedro")]);
    var states := [Fn(() => map["type" := Str("user")]), Obj(pedro)];
    user := reg.Build("user", Array(states));
    FoldFnThenObj(() => map["type" := Str("user")], pedro);
    ArrayMerge();
  }
}
