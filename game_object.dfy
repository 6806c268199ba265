// A game object: a named container of components told apart by their type, kept in the
// order they were added.
module GameObjects {
  import opened Wrappers

  /** The type a component is stored under; Transform and Camera have methods of their own. */
  datatype ComponentType = TransformType | CameraType | OtherType(id: nat)

  /**
   * A stored component. Its own data is abstracted to `state`, which a tick advances by one;
   * Transform and Camera are the types a game object ticks.
   */
  datatype Component = Component(kind: ComponentType, state: nat)

  /** The components of type `t`, in insertion order. */
  function OfType(cs: seq<Component>, t: ComponentType): (r: seq<Component>)
    ensures |r| <= |cs|
    ensures forall k :: 0 <= k < |r| ==> r[k].kind == t
  {
    if cs == [] then []
    else OfType(cs[..|cs| - 1], t) + (if cs[|cs| - 1].kind == t then [cs[|cs| - 1]] else [])
  }

  /** The components not of type `t`, in their order: what `retain` keeps. */
  function Without(cs: seq<Component>, t: ComponentType): (r: seq<Component>)
    ensures |r| <= |cs|
    ensures forall k :: 0 <= k < |r| ==> r[k].kind != t
  {
    if cs == [] then []
    else Without(cs[..|cs| - 1], t) + (if cs[|cs| - 1].kind == t then [] else [cs[|cs| - 1]])
  }

  predicate Has(cs: seq<Component>, t: ComponentType) {
    exists k :: 0 <= k < |cs| && cs[k].kind == t
  }

  /** `iter().position`: where the first component of type `t` sits. */
  function FirstIndexOf(cs: seq<Component>, t: ComponentType): (r: Option<nat>)
    ensures r.Some? ==> r.value < |cs| && cs[r.value].kind == t
    ensures r.Some? ==> forall k :: 0 <= k < r.value ==> cs[k].kind != t
    ensures r.None? <==> !Has(cs, t)
  {
    if cs == [] then None
    else if cs[0].kind == t then Some(0)
    else match FirstIndexOf(cs[1..], t)
      case None => None
      case Some(i) => Some(i + 1)
  }

  function RemoveAt(cs: seq<Component>, i: nat): seq<Component>
    requires i < |cs|
  {
    cs[..i] + cs[i + 1..]
  }

  /** Each Transform and Camera component ticked once, the others untouched. */
  function Ticked(cs: seq<Component>): (r: seq<Component>)
    ensures |r| == |cs|
  {
    seq(|cs|, k requires 0 <= k < |cs| => TickedOne(cs[k]))
  }

  function TickedOne(c: Component): Component {
    if c.kind == TransformType || c.kind == CameraType then c.(state := c.state + 1) else c
  }

  /** `get_or_add_*`: the list after making sure a component of the type is present. */
  function WithOneOf(cs: seq<Component>, fallback: Component): seq<Component> {
    if Has(cs, fallback.kind) then cs else cs + [fallback]
  }

  class GameObject {
    var name: string
    var enabled: bool
    var components: seq<Component>

    /** `new`: enabled, with no components. */
    constructor (name: string)
      ensures this.name == name && enabled && components == []
    {
      this.name := name;
      enabled := true;
      components := [];
    }

    /** `with_transform`: a new object holding only the given default Transform. */
    constructor WithTransform(name: string, transform: Component)
      requires transform.kind == TransformType
      ensures this.name == name && enabled && components == [transform]
    {
      this.name := name;
      enabled := true;
      components := [transform];
    }

    /** `with_camera`: a new object holding only the given default Camera. */
    constructor WithCamera(name: string, camera: Component)
      requires camera.kind == CameraType
      ensures this.name == name && enabled && components == [camera]
    {
      this.name := name;
      enabled := true;
      components := [camera];
    }

    method SetName(name: string)
      modifies this
      ensures this.name == name && enabled == old(enabled) && components == old(components)
    {
      this.name := name;
    }

    /** `add_component`: appended at the end. */
    method AddComponent(c: Component)
      modifies this
      ensures components == old(components) + [c]
      ensures name == old(name) && enabled == old(enabled)
    {
      components := components + [c];
    }

    /** `remove_component`: removes the first component of the type, if there is one. */
    method RemoveComponent(t: ComponentType) returns (removed: bool)
      modifies this
      ensures removed <==> Has(old(components), t)
      ensures removed ==> components == RemoveAt(old(components), FirstIndexOf(old(components), t).value)
      ensures !removed ==> components == old(components)
      ensures name == old(name) && enabled == old(enabled)
    {
      var i := 0;
      while i < |components| && components[i].kind != t
        invariant 0 <= i <= |components|
        invariant forall k :: 0 <= k < i ==> components[k].kind != t
      {
        i := i + 1;
      }
      if i < |components| {
        FirstIndexIs(components, t, i);
        components := components[..i] + components[i + 1..];
        removed := true;
      } else {
        removed := false;
      }
    }

    /** `remove_all_components`: keeps the components of other types and counts the rest. */
    method RemoveAllComponents(t: ComponentType) returns (n: nat)
      modifies this
      ensures components == Without(old(components), t)
      ensures n == |old(components)| - |components|
      ensures name == old(name) && enabled == old(enabled)
    {
      var kept: seq<Component> := [];
      var i := 0;
      while i < |components|
        invariant 0 <= i <= |components|
        invariant kept == Without(components[..i], t)
      {
        assert components[..i + 1][..i] == components[..i];
        if components[i].kind != t {
          kept := kept + [components[i]];
        }
        i := i + 1;
      }
      assert components[..i] == components;
      n := |components| - |kept|;
      components := kept;
    }

    /** `get_component`: the first component of the type. */
    function GetComponent(t: ComponentType): (r: Option<Component>)
      reads this
      ensures r.Some? <==> Has(components, t)
      ensures r.Some? ==> r.value.kind == t
      ensures r.Some? ==> exists i :: (0 <= i < |components| && components[i] == r.value &&
        forall j :: 0 <= j < i ==> components[j].kind != t)
    {
      match FirstIndexOf(components, t)
      case None => None
      case Some(i) => Some(components[i])
    }

    /** `get_component_at`: the `index`-th component of the type, counting from zero. */
    function GetComponentAt(t: ComponentType, index: nat): (r: Option<Component>)
      reads this
      ensures r.Some? <==> index < ComponentCountOfType(t)
      ensures r.Some? ==> r.value.kind == t
      ensures r.Some? ==> exists i :: (0 <= i < |components| && components[i] == r.value &&
        components[i].kind == t && |OfType(components[..i], t)| == index)
    {
      var all := OfType(components, t);
      if index < |all| then OfTypeSource(components, t, index); Some(all[index]) else None
    }

    /** `get_components`: every component of the type, in insertion order. */
    function GetComponents(t: ComponentType): (r: seq<Component>)
      reads this
      ensures |r| == ComponentCountOfType(t)
      ensures forall k :: 0 <= k < |r| ==> r[k].kind == t
      ensures forall c :: c in r <==> c in components && c.kind == t
      ensures forall i :: 0 <= i < |components| && components[i].kind == t ==>
        |OfType(components[..i], t)| < |r| && r[|OfType(components[..i], t)|] == components[i]
    {
      OfTypeIsOrderedSelection(components, t);
      OfType(components, t)
    }

    function HasComponent(t: ComponentType): bool
      reads this
    {
      Has(components, t)
    }

    function ComponentCount(): nat
      reads this
    {
      |components|
    }

    function ComponentCountOfType(t: ComponentType): nat
      reads this
    {
      |OfType(components, t)|
    }

    method ClearComponents()
      modifies this
      ensures components == [] && name == old(name) && enabled == old(enabled)
    {
      components := [];
    }

    /**
     * `get_or_add_transform`: adds the given default Transform only when there is none, and
     * answers the position of the first Transform.
     */
    method GetOrAddTransform(fallback: Component) returns (index: nat)
      requires fallback.kind == TransformType
      modifies this
      ensures components == WithOneOf(old(components), fallback)
      ensures FirstIndexOf(components, TransformType) == Some(index)
      ensures name == old(name) && enabled == old(enabled)
    {
      index := GetOrAdd(fallback);
    }

    /** `get_or_add_camera`, the same for Camera. */
    method GetOrAddCamera(fallback: Component) returns (index: nat)
      requires fallback.kind == CameraType
      modifies this
      ensures components == WithOneOf(old(components), fallback)
      ensures FirstIndexOf(components, CameraType) == Some(index)
      ensures name == old(name) && enabled == old(enabled)
    {
      index := GetOrAdd(fallback);
    }

    method GetOrAdd(fallback: Component) returns (index: nat)
      modifies this
      ensures components == WithOneOf(old(components), fallback)
      ensures FirstIndexOf(components, fallback.kind) == Some(index)
      ensures name == old(name) && enabled == old(enabled)
    {
      if !HasComponent(fallback.kind) {
        AddComponent(fallback);
        assert components[|components| - 1].kind == fallback.kind;
      }
      index := FirstIndexOf(components, fallback.kind).value;
    }

    /** `tick`: a disabled object does nothing; an enabled one ticks its Transforms and Cameras. */
    method Tick(deltaTime: real)
      modifies this
      ensures !old(enabled) ==> components == old(components)
      ensures old(enabled) ==> components == Ticked(old(components))
      ensures name == old(name) && enabled == old(enabled)
    {
      if !enabled {
        return;
      }
      var i := 0;
      while i < |components|
        invariant 0 <= i <= |components| && |components| == |old(components)|
        invariant forall k :: 0 <= k < i ==> components[k] == TickedOne(old(components)[k])
        invariant forall k :: i <= k < |components| ==> components[k] == old(components)[k]
        invariant name == old(name) && enabled == old(enabled)
      {
        components := components[i := TickedOne(components[i])];
        i := i + 1;
      }
    }
  }

  lemma FirstIndexIs(cs: seq<Component>, t: ComponentType, i: nat)
    requires i < |cs| && cs[i].kind == t
    requires forall k :: 0 <= k < i ==> cs[k].kind != t
    ensures FirstIndexOf(cs, t) == Some(i)
  {
    var r := FirstIndexOf(cs, t);
    assert r.Some?;
    if r.value < i {
    } else if r.value > i {
    }
  }

  /** Filtering distributes over concatenation. */
  lemma {:induction false} OfTypeConcat(a: seq<Component>, b: seq<Component>, t: ComponentType)
    ensures OfType(a + b, t) == OfType(a, t) + OfType(b, t)
    decreases |b|
  {
    if b == [] {
      assert a + b == a;
    } else {
      var b' := b[..|b| - 1];
      assert (a + b)[..|a + b| - 1] == a + b';
      OfTypeConcat(a, b', t);
    }
  }

  /** A type occurs exactly when it has at least one component. */
  lemma {:induction false} CountPositiveIffHas(cs: seq<Component>, t: ComponentType)
    ensures |OfType(cs, t)| > 0 <==> Has(cs, t)
    decreases |cs|
  {
    if cs != [] {
      var init := cs[..|cs| - 1];
      CountPositiveIffHas(init, t);
      if Has(cs, t) && cs[|cs| - 1].kind != t {
        var k :| 0 <= k < |cs| && cs[k].kind == t;
        assert init[k].kind == t;
      }
      if Has(init, t) {
        var k :| 0 <= k < |init| && init[k].kind == t;
        assert cs[k].kind == t;
      }
    }
  }

  /** `get_component` is `get_component_at(0)`: the first of the filtered list. */
  lemma {:induction false} FirstOfTypeIsAtZero(cs: seq<Component>, t: ComponentType)
    requires Has(cs, t)
    ensures |OfType(cs, t)| > 0 && OfType(cs, t)[0] == cs[FirstIndexOf(cs, t).value]
  {
    var i := FirstIndexOf(cs, t).value;
    assert cs == cs[..i] + [cs[i]] + cs[i + 1..];
    OfTypeConcat(cs[..i] + [cs[i]], cs[i + 1..], t);
    OfTypeConcat(cs[..i], [cs[i]], t);
    NoneOfType(cs[..i], t);
    assert OfType([cs[i]], t) == OfType([], t) + [cs[i]] by {
      assert [cs[i]][..0] == [];
    }
  }

  lemma {:induction false} NoneOfType(cs: seq<Component>, t: ComponentType)
    requires forall k :: 0 <= k < |cs| ==> cs[k].kind != t
    ensures OfType(cs, t) == []
    decreases |cs|
  {
    if cs != [] {
      NoneOfType(cs[..|cs| - 1], t);
    }
  }

  lemma {:induction false} AllKept(cs: seq<Component>, t: ComponentType)
    requires forall k :: 0 <= k < |cs| ==> cs[k].kind != t
    ensures Without(cs, t) == cs
    decreases |cs|
  {
    if cs != [] {
      AllKept(cs[..|cs| - 1], t);
    }
  }

  /**
   * `remove_all_components` removes every component of the type, leaves every other type's
   * components as they were, and answers how many it removed.
   */
  lemma {:induction false} WithoutRemovesExactlyOneType(cs: seq<Component>, t: ComponentType, u: ComponentType)
    requires u != t
    ensures OfType(Without(cs, t), t) == []
    ensures OfType(Without(cs, t), u) == OfType(cs, u)
    ensures |cs| - |Without(cs, t)| == |OfType(cs, t)|
    decreases |cs|
  {
    NoneOfType(Without(cs, t), t);
    if cs != [] {
      var init := cs[..|cs| - 1];
      var last := cs[|cs| - 1];
      WithoutRemovesExactlyOneType(init, t, u);
      var kept := if last.kind == t then [] else [last];
      OfTypeConcat(Without(init, t), kept, u);
      assert OfType([last], u) == OfType([], u) + (if last.kind == u then [last] else []) by {
        assert [last][..0] == [];
      }
    }
  }

  /** Filtering around a position: what comes before it, the element itself, and what follows. */
  lemma OfTypeAround(cs: seq<Component>, i: nat, t: ComponentType)
    requires i < |cs|
    ensures OfType(cs, t) == OfType(cs[..i], t) + OfType([cs[i]], t) + OfType(cs[i + 1..], t)
    ensures OfType(RemoveAt(cs, i), t) == OfType(cs[..i], t) + OfType(cs[i + 1..], t)
    ensures OfType([cs[i]], t) == (if cs[i].kind == t then [cs[i]] else [])
  {
    assert cs == cs[..i] + [cs[i]] + cs[i + 1..];
    OfTypeConcat(cs[..i] + [cs[i]], cs[i + 1..], t);
    OfTypeConcat(cs[..i], [cs[i]], t);
    OfTypeConcat(cs[..i], cs[i + 1..], t);
    assert [cs[i]][..0] == [];
  }

  /** A component of the type at position `i` is the filtered list's entry ranked by those before it. */
  lemma OfTypeRank(cs: seq<Component>, t: ComponentType, i: nat)
    requires i < |cs| && cs[i].kind == t
    ensures |OfType(cs[..i], t)| < |OfType(cs, t)| && OfType(cs, t)[|OfType(cs[..i], t)|] == cs[i]
  {
    OfTypeAround(cs, i, t);
  }

  /** Each entry of the filtered list is a component of the type with as many of the type before it. */
  lemma {:induction false} OfTypeSource(cs: seq<Component>, t: ComponentType, k: nat)
    requires k < |OfType(cs, t)|
    ensures exists i :: 0 <= i < |cs| && cs[i] == OfType(cs, t)[k] && cs[i].kind == t && |OfType(cs[..i], t)| == k
    decreases |cs|
  {
    var init := cs[..|cs| - 1];
    if k < |OfType(init, t)| {
      OfTypeSource(init, t, k);
      var i :| 0 <= i < |init| && init[i] == OfType(init, t)[k] && init[i].kind == t && |OfType(init[..i], t)| == k;
      assert init[..i] == cs[..i];
      assert cs[i] == OfType(cs, t)[k];
    } else {
      var i := |cs| - 1;
      assert cs[..i] == init;
      assert cs[i] == OfType(cs, t)[k];
    }
  }

  /**
   * The filtered list holds exactly the components of the type, each at the rank given by the
   * components of the type before it: the order of insertion is kept.
   */
  lemma OfTypeIsOrderedSelection(cs: seq<Component>, t: ComponentType)
    ensures forall c :: c in OfType(cs, t) <==> c in cs && c.kind == t
    ensures forall i :: 0 <= i < |cs| && cs[i].kind == t ==>
      |OfType(cs[..i], t)| < |OfType(cs, t)| && OfType(cs, t)[|OfType(cs[..i], t)|] == cs[i]
  {
    forall i | 0 <= i < |cs| && cs[i].kind == t
      ensures |OfType(cs[..i], t)| < |OfType(cs, t)| && OfType(cs, t)[|OfType(cs[..i], t)|] == cs[i]
    {
      OfTypeRank(cs, t, i);
    }
    forall c | c in OfType(cs, t)
      ensures c in cs && c.kind == t
    {
      var k :| 0 <= k < |OfType(cs, t)| && OfType(cs, t)[k] == c;
      OfTypeSource(cs, t, k);
    }
  }

  /**
   * `remove_component` takes away the first component of the type: one fewer of that type,
   * the rest of them still in order.
   */
  lemma RemoveFirstOfType(cs: seq<Component>, t: ComponentType)
    requires Has(cs, t)
    ensures |OfType(cs, t)| > 0
    ensures OfType(RemoveAt(cs, FirstIndexOf(cs, t).value), t) == OfType(cs, t)[1..]
  {
    var i := FirstIndexOf(cs, t).value;
    OfTypeFromFirst(cs, i, t);
    assert ([cs[i]] + OfType(cs[i + 1..], t))[1..] == OfType(cs[i + 1..], t);
  }

  /** From the first component of type `t` on, that component heads the components of type `t`. */
  lemma OfTypeFromFirst(cs: seq<Component>, i: nat, t: ComponentType)
    requires i < |cs| && cs[i].kind == t
    requires forall k :: 0 <= k < i ==> cs[k].kind != t
    ensures OfType(cs, t) == [cs[i]] + OfType(cs[i + 1..], t)
    ensures OfType(RemoveAt(cs, i), t) == OfType(cs[i + 1..], t)
  {
    var before := cs[..i];
    assert forall k :: 0 <= k < |before| ==> before[k].kind != t;
    NoneOfType(before, t);
    OfTypeAround(cs, i, t);
  }

  /** ... and every other type's components are untouched. */
  lemma RemoveFirstKeepsOtherTypes(cs: seq<Component>, t: ComponentType, u: ComponentType)
    requires Has(cs, t) && u != t
    ensures OfType(RemoveAt(cs, FirstIndexOf(cs, t).value), u) == OfType(cs, u)
  {
    var i := FirstIndexOf(cs, t).value;
    OfTypeAround(cs, i, u);
  }

  /** Adding a component makes it the last of its type and leaves other types alone. */
  lemma AddIsLastOfType(cs: seq<Component>, c: Component, u: ComponentType)
    requires u != c.kind
    ensures OfType(cs + [c], c.kind) == OfType(cs, c.kind) + [c]
    ensures OfType(cs + [c], u) == OfType(cs, u)
    ensures Has(cs + [c], c.kind)
  {
    assert (cs + [c])[..|cs|] == cs;
    assert (cs + [c])[|cs|].kind == c.kind;
  }

  /** Removing the type of a component just added, when it was the only one, undoes the add. */
  lemma RemoveUndoesAdd(cs: seq<Component>, c: Component)
    requires !Has(cs, c.kind)
    ensures Has(cs + [c], c.kind)
    ensures RemoveAt(cs + [c], FirstIndexOf(cs + [c], c.kind).value) == cs
  {
    var s := cs + [c];
    assert s[|cs|].kind == c.kind;
    FirstIndexIs(s, c.kind, |cs|);
    assert s[..|cs|] == cs;
  }

  /** `get_or_add_*` twice is the same as once. */
  lemma WithOneOfIdempotent(cs: seq<Component>, fallback: Component)
    ensures Has(WithOneOf(cs, fallback), fallback.kind)
    ensures WithOneOf(WithOneOf(cs, fallback), fallback) == WithOneOf(cs, fallback)
  {
    if !Has(cs, fallback.kind) {
      assert (cs + [fallback])[|cs|].kind == fallback.kind;
    }
  }

  /** Ticking keeps every component's type and position. */
  lemma TickKeepsTypes(cs: seq<Component>, t: ComponentType)
    ensures forall k :: 0 <= k < |cs| ==> Ticked(cs)[k].kind == cs[k].kind
    ensures |OfType(Ticked(cs), t)| == |OfType(cs, t)|
  {
    TickKeepsCount(cs, t);
  }

  lemma {:induction false} TickKeepsCount(cs: seq<Component>, t: ComponentType)
    ensures |OfType(Ticked(cs), t)| == |OfType(cs, t)|
    decreases |cs|
  {
    if cs != [] {
      var init := cs[..|cs| - 1];
      TickKeepsCount(init, t);
      assert Ticked(cs)[..|cs| - 1] == Ticked(init);
    }
  }
}
