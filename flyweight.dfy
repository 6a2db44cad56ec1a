/** Flyweight.java: a factory that caches shared flyweights by key, creating one only
    for a key it has not seen, beside an unshared flyweight that is never cached. */
module Flyweight {
  import opened JavaLang

  /** Which implementation of the `iFlyweight` interface an object is. */
  datatype Kind = Concrete | UnsharedConcrete

  /** A flyweight: `ConcreteFlyweight` holds shareable intrinsic state and
      `UnsharedConcreteFlyweight` a unique state; both fields are `final`. */
  class FlyweightObject {
    const kind: Kind
    const state: JString

    constructor ConcreteFlyweight(intrinsicState: JString)
      ensures kind == Concrete && state == intrinsicState
    {
      kind, state := Concrete, intrinsicState;
    }

    constructor UnsharedConcreteFlyweight(uniqueState: JString)
      ensures kind == UnsharedConcrete && state == uniqueState
    {
      kind, state := UnsharedConcrete, uniqueState;
    }

    /** `render`: the extrinsic state is supplied by the caller and only printed. */
    method Render(extrinsicState: JString, out: Console)
      modifies out
      ensures out.lines == old(out.lines) + [RenderLine(kind, state, extrinsicState)]
    {
      out.PrintLn(RenderLine(kind, state, extrinsicState));
    }
  }

  const ConcretePrefix := "렌더링 플라이웨이트 intrinsicState -> "
  const UnsharedPrefix := "렌더링 비공유 플라이 웨이트"
  const ExtrinsicTag := " extrinsicState ->"

  /** The line `render` prints for an object of the given kind and state. */
  function RenderLine(kind: Kind, state: JString, extrinsicState: JString): string
  {
    match kind
    case Concrete => ConcretePrefix + Show(state) + ExtrinsicTag + Show(extrinsicState)
    case UnsharedConcrete => UnsharedPrefix + Show(state) + ExtrinsicTag + Show(extrinsicState)
  }

  const NewKeyPrefix := "새로운 플라이웨이트 키 생성 -> "
  const ReusePrefix := "재사용 존재하는 플라이웨이트 키 -> "

  /** The line `getFlyweight` prints, depending on whether the key was already cached. */
  function LookupMessage(key: JString, cached: bool): string
  {
    if cached then ReusePrefix + Show(key) else NewKeyPrefix + Show(key)
  }

  /** The log line tells whether the lookup created a flyweight: it starts with the
      "new key" text exactly when the key was not cached, and the "reuse" text otherwise. */
  lemma LookupMessageTellsCreation(key: JString, cached: bool)
    ensures NewKeyPrefix <= LookupMessage(key, cached) <==> !cached
    ensures cached ==> ReusePrefix <= LookupMessage(key, cached)
  {
    if cached {
      var m := LookupMessage(key, cached);
      assert m[0] == ReusePrefix[0] != NewKeyPrefix[0];
    }
  }

  /** A shared and an unshared flyweight never print the same line. */
  lemma RenderLineTellsKind(s1: JString, e1: JString, s2: JString, e2: JString)
    ensures RenderLine(Concrete, s1, e1) != RenderLine(UnsharedConcrete, s2, e2)
  {
    var a, b := RenderLine(Concrete, s1, e1), RenderLine(UnsharedConcrete, s2, e2);
    assert a[4] == ConcretePrefix[4] != UnsharedPrefix[4] == b[4];
  }

  /** `FlyweightFactory`: a `HashMap` from key to flyweight, filled on demand. */
  class FlyweightFactory {
    var flyweight: map<JString, FlyweightObject>

    /** Every cached object is a shared flyweight whose intrinsic state is its key. */
    ghost predicate Valid()
      reads this
    {
      forall k | k in flyweight :: flyweight[k].kind == Concrete && flyweight[k].state == k
    }

    constructor ()
      ensures Valid() && flyweight == map[]
    {
      flyweight := map[];
    }

    /** `getFlyweight`: create and cache a flyweight for an unseen key, otherwise reuse
        the cached one; either way return the cache's entry for the key. */
    method GetFlyweight(key: JString, out: Console) returns (f: FlyweightObject)
      requires Valid()
      modifies this, out
      ensures Valid()
      ensures key in flyweight && f == flyweight[key]
      ensures f.kind == Concrete && f.state == key
      ensures old(key in flyweight) ==> flyweight == old(flyweight) && f == old(flyweight[key])
      ensures old(key !in flyweight) ==> fresh(f) && flyweight == old(flyweight)[key := f]
      ensures flyweight.Keys == old(flyweight.Keys) + {key}
      ensures |flyweight| == |old(flyweight)| + (if old(key in flyweight) then 0 else 1)
      ensures out.lines == old(out.lines) + [LookupMessage(key, old(key in flyweight))]
    {
      if key !in flyweight {
        out.PrintLn(LookupMessage(key, false));
        var created := new FlyweightObject.ConcreteFlyweight(key);
        flyweight := flyweight[key := created];
      } else {
        out.PrintLn(LookupMessage(key, true));
      }
      f := flyweight[key];
    }
  }

  /** Looking the same key up twice: the second lookup returns the identical object,
      leaves the cache as the first left it, and logs the reuse line. */
  method LookupTwice(factory: FlyweightFactory, key: JString, out: Console)
    returns (f1: FlyweightObject, f2: FlyweightObject)
    requires factory.Valid()
    modifies factory, out
    ensures factory.Valid() && f1 == f2
    ensures factory.flyweight.Keys == old(factory.flyweight.Keys) + {key}
    ensures out.lines == old(out.lines) + [LookupMessage(key, old(key in factory.flyweight)), LookupMessage(key, true)]
  {
    f1 := factory.GetFlyweight(key, out);
    f2 := factory.GetFlyweight(key, out);
  }

  /** An unshared flyweight is made directly and never enters a factory's cache:
      creating and rendering one leaves every factory unchanged. */
  method RenderUnshared(factory: FlyweightFactory, uniqueState: JString, extrinsicState: JString, out: Console)
    returns (u: FlyweightObject)
    requires factory.Valid()
    modifies out
    ensures u.kind == UnsharedConcrete && u !in factory.flyweight.Values
    ensures out.lines == old(out.lines) + [RenderLine(UnsharedConcrete, uniqueState, extrinsicState)]
  {
    u := new FlyweightObject.UnsharedConcreteFlyweight(uniqueState);
    u.Render(extrinsicState, out);
  }

  // A run of lookups, as a function of the keys cached beforehand.

  /** The keys cached after looking up `keys` in order, starting from `cached`. */
  function KeysAfter(cached: set<JString>, keys: seq<JString>): set<JString>
    decreases |keys|
  {
    if keys == [] then cached else KeysAfter(cached + {keys[0]}, keys[1..])
  }

  /** How many of those lookups create a flyweight. */
  function Creations(cached: set<JString>, keys: seq<JString>): nat
    decreases |keys|
  {
    if keys == [] then 0
    else (if keys[0] in cached then 0 else 1) + Creations(cached + {keys[0]}, keys[1..])
  }

  /** Looking up `keys` in order on one factory: the cache ends up holding `KeysAfter`
      the keys it held before, and the factory creates `Creations` new flyweights. */
  method LookupAll(factory: FlyweightFactory, keys: seq<JString>, out: Console)
    requires factory.Valid()
    modifies factory, out
    ensures factory.Valid()
    ensures factory.flyweight.Keys == KeysAfter(old(factory.flyweight.Keys), keys)
    ensures |factory.flyweight| == |old(factory.flyweight)| + Creations(old(factory.flyweight.Keys), keys)
  {
    var i := 0;
    while i < |keys|
      invariant 0 <= i <= |keys| && factory.Valid()
      invariant KeysAfter(factory.flyweight.Keys, keys[i..]) == KeysAfter(old(factory.flyweight.Keys), keys)
      invariant |factory.flyweight| + Creations(factory.flyweight.Keys, keys[i..])
                == |old(factory.flyweight)| + Creations(old(factory.flyweight.Keys), keys)
    {
      assert keys[i..][0] == keys[i] && keys[i..][1..] == keys[i + 1..];
      var _ := factory.GetFlyweight(keys[i], out);
      i := i + 1;
    }
    assert keys[i..] == [];
  }

  /** Any run of lookups caches exactly the keys asked for, in addition to those cached before. */
  lemma {:induction false} KeysAfterRun(cached: set<JString>, keys: seq<JString>)
    ensures KeysAfter(cached, keys) == cached + (set k | k in keys)
    decreases |keys|
  {
    if keys != [] {
      KeysAfterRun(cached + {keys[0]}, keys[1..]);
      assert keys == [keys[0]] + keys[1..];
      assert (set x | x in keys) == {keys[0]} + (set x | x in keys[1..]);
    }
  }

  /** Any run of lookups creates one flyweight per distinct key that was not cached
      before, however often each key is asked for. */
  lemma {:induction false} OneCreationPerNewKey(cached: set<JString>, keys: seq<JString>)
    ensures Creations(cached, keys) == |KeysAfter(cached, keys) - cached|
    decreases |keys|
  {
    if keys != [] {
      var k := keys[0];
      var next := cached + {k};
      OneCreationPerNewKey(next, keys[1..]);
      var after := KeysAfter(cached, keys);
      assert after == KeysAfter(next, keys[1..]);
      if k !in cached {
        KeysAfterRun(next, keys[1..]);
        assert after - cached == (after - next) + {k};
      } else {
        assert next == cached;
      }
    }
  }
}
