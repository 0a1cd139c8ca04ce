/**
 * Start-up: every `automatic_layer_generator_register` object of one archive format
 * runs once, in order, before the registry is used. This module states what the
 * registry holds afterwards.
 */
module Startup {
  import opened Wrappers
  import opened Registry
  import opened Glue

  /** One registration object: the name and the type it registers. */
  datatype Registration = Registration(name: string, key: TypeKey)

  /**
   * The tables after running `regs` in order on a registry of format `fmt`. Registration
   * only ever assigns, so start-up never removes a name or a type from any table.
   */
  function RegisterAll(t: Tables, fmt: Format, regs: seq<Registration>): (r: Tables)
    ensures t.loaders.Keys <= r.loaders.Keys && t.savers.Keys <= r.savers.Keys
    ensures t.typeNames.Keys <= r.typeNames.Keys
    decreases |regs|
  {
    if regs == [] then t
    else RegisterAll(AutoRegistered(t, fmt, regs[0].name, regs[0].key), fmt, regs[1..])
  }

  /** No name is registered for two different types. */
  ghost predicate NameOwnedOnce(regs: seq<Registration>) {
    forall i, j :: 0 <= i < |regs| && 0 <= j < |regs| && regs[i].name == regs[j].name ==>
      regs[i].key == regs[j].key
  }

  /**
   * The tables hold only what the glue registers: each name loads and saves one type,
   * and the name recorded for a type is one that loads and saves that same type.
   */
  ghost predicate Coherent(t: Tables, fmt: Format) {
    && t.loaders.Keys == t.savers.Keys
    && (forall s :: s in t.loaders ==>
          && t.loaders[s].LayerLoader?
          && t.loaders[s].format == fmt
          && t.savers[s] == Saver(t.loaders[s].layerType, LayerSaver(fmt, t.loaders[s].layerType)))
    && (forall k :: k in t.typeNames ==>
          t.typeNames[k] in t.loaders && t.loaders[t.typeNames[k]] == LayerLoader(fmt, k))
  }

  /** Each name in `regs` that is already registered is registered for the same type. */
  ghost predicate Fits(t: Tables, fmt: Format, regs: seq<Registration>) {
    forall i :: 0 <= i < |regs| && regs[i].name in t.loaders ==>
      t.loaders[regs[i].name] == LayerLoader(fmt, regs[i].key)
  }

  /** Start-up from a new registry leaves it coherent when no name is shared by two types. */
  lemma StartupFromEmptyIsCoherent(fmt: Format, regs: seq<Registration>)
    requires NameOwnedOnce(regs)
    ensures Coherent(RegisterAll(Empty, fmt, regs), fmt)
  {
    StartupKeepsCoherent(Empty, fmt, regs);
  }

  /** One registration keeps the tables coherent unless it takes a name from another type. */
  lemma AutoRegisteredKeepsCoherent(t: Tables, fmt: Format, s: string, key: TypeKey)
    requires Coherent(t, fmt)
    requires s in t.loaders ==> t.loaders[s] == LayerLoader(fmt, key)
    ensures Coherent(AutoRegistered(t, fmt, s, key), fmt)
  {
    var r := AutoRegistered(t, fmt, s, key);
    assert r.loaders == t.loaders[s := LayerLoader(fmt, key)];
    assert r.savers == t.savers[s := Saver(key, LayerSaver(fmt, key))];
    assert r.typeNames == t.typeNames[key := s];
  }

  /** Start-up keeps the tables coherent when no name is shared by two types. */
  lemma {:induction false} StartupKeepsCoherent(t: Tables, fmt: Format, regs: seq<Registration>)
    requires Coherent(t, fmt) && Fits(t, fmt, regs) && NameOwnedOnce(regs)
    ensures Coherent(RegisterAll(t, fmt, regs), fmt)
    decreases |regs|
  {
    if regs != [] {
      var r0 := regs[0];
      var t' := AutoRegistered(t, fmt, r0.name, r0.key);
      AutoRegisteredKeepsCoherent(t, fmt, r0.name, r0.key);
      var rest := regs[1..];
      forall i | 0 <= i < |rest| && rest[i].name in t'.loaders
        ensures t'.loaders[rest[i].name] == LayerLoader(fmt, rest[i].key)
      {
        assert rest[i] == regs[i + 1];
        if rest[i].name == r0.name {
          assert regs[i + 1].key == regs[0].key;
        } else {
          assert t'.loaders[rest[i].name] == t.loaders[rest[i].name];
        }
      }
      assert NameOwnedOnce(rest) by {
        forall i, j | 0 <= i < |rest| && 0 <= j < |rest| && rest[i].name == rest[j].name
          ensures rest[i].key == rest[j].key
        {
          assert rest[i] == regs[i + 1] && rest[j] == regs[j + 1];
        }
      }
      StartupKeepsCoherent(t', fmt, rest);
    }
  }

  /** After start-up every registered name can be loaded and saved, and every registered type has a name. */
  lemma {:induction false} StartupRegistersAll(t: Tables, fmt: Format, regs: seq<Registration>, i: nat)
    requires i < |regs|
    ensures var r := RegisterAll(t, fmt, regs);
      r.Load(regs[i].name).Success? && r.SerializationName(regs[i].key).Success? &&
      forall l :: r.Save(regs[i].name, l).Success?
    decreases |regs|
  {
    var t' := AutoRegistered(t, fmt, regs[0].name, regs[0].key);
    if i == 0 {
      assert regs[0].name in t'.loaders && regs[0].name in t'.savers && regs[0].key in t'.typeNames;
    } else {
      StartupRegistersAll(t', fmt, regs[1..], i - 1);
    }
  }

  /** Registrations that do not mention type `k` leave its name as it was. */
  lemma {:induction false} StartupKeepsName(t: Tables, fmt: Format, regs: seq<Registration>, k: TypeKey)
    requires forall j :: 0 <= j < |regs| ==> regs[j].key != k
    ensures RegisterAll(t, fmt, regs).SerializationName(k) == t.SerializationName(k)
    decreases |regs|
  {
    if regs != [] {
      var t' := AutoRegistered(t, fmt, regs[0].name, regs[0].key);
      assert regs[0].key != k;
      StartupKeepsName(t', fmt, regs[1..], k);
    }
  }

  /** Last write wins: a type is named by the last registration of that type. */
  lemma {:induction false} StartupLastWriteWins(t: Tables, fmt: Format, regs: seq<Registration>, i: nat)
    requires i < |regs|
    requires forall j :: i < j < |regs| ==> regs[j].key != regs[i].key
    ensures RegisterAll(t, fmt, regs).SerializationName(regs[i].key) == Success(regs[i].name)
    decreases |regs|
  {
    var t' := AutoRegistered(t, fmt, regs[0].name, regs[0].key);
    var rest := regs[1..];
    if i == 0 {
      forall j | 0 <= j < |rest| ensures rest[j].key != regs[0].key {
        assert rest[j] == regs[j + 1];
      }
      StartupKeepsName(t', fmt, rest, regs[0].key);
    } else {
      forall j | i - 1 < j < |rest| ensures rest[j].key != rest[i - 1].key {
        assert rest[j] == regs[j + 1];
      }
      StartupLastWriteWins(t', fmt, rest, i - 1);
    }
  }

  /** Registrations under other names leave what a name loads as it was. */
  lemma {:induction false} StartupKeepsLoad(t: Tables, fmt: Format, regs: seq<Registration>, n: string)
    requires forall j :: 0 <= j < |regs| ==> regs[j].name != n
    ensures RegisterAll(t, fmt, regs).Load(n) == t.Load(n)
    decreases |regs|
  {
    if regs != [] {
      var t' := AutoRegistered(t, fmt, regs[0].name, regs[0].key);
      assert regs[0].name != n;
      StartupKeepsLoad(t', fmt, regs[1..], n);
    }
  }

  /** Last write wins for names: a name loads the type of the last registration under it. */
  lemma {:induction false} StartupLastLoad(t: Tables, fmt: Format, regs: seq<Registration>, i: nat)
    requires i < |regs|
    requires forall j :: i < j < |regs| ==> regs[j].name != regs[i].name
    ensures RegisterAll(t, fmt, regs).Load(regs[i].name) == Success(LayerLoader(fmt, regs[i].key))
    decreases |regs|
  {
    var t' := AutoRegistered(t, fmt, regs[0].name, regs[0].key);
    var rest := regs[1..];
    if i == 0 {
      forall j | 0 <= j < |rest| ensures rest[j].name != regs[0].name {
        assert rest[j] == regs[j + 1];
      }
      StartupKeepsLoad(t', fmt, rest, regs[0].name);
    } else {
      forall j | i - 1 < j < |rest| ensures rest[j].name != rest[i - 1].name {
        assert rest[j] == regs[j + 1];
      }
      StartupLastLoad(t', fmt, rest, i - 1);
    }
  }

  /** Tables that step through `regs` one registration at a time end where `RegisterAll` ends. */
  lemma {:induction false} RegisterAllSteps(states: seq<Tables>, fmt: Format, regs: seq<Registration>)
    requires |states| == |regs| + 1
    requires forall k :: 0 <= k < |regs| ==>
      states[k + 1] == AutoRegistered(states[k], fmt, regs[k].name, regs[k].key)
    ensures states[|regs|] == RegisterAll(states[0], fmt, regs)
    decreases |regs|
  {
    if regs != [] {
      var states', regs' := states[1..], regs[1..];
      forall k | 0 <= k < |regs'|
        ensures states'[k + 1] == AutoRegistered(states'[k], fmt, regs'[k].name, regs'[k].key)
      {
        assert states'[k + 1] == states[k + 2] && states'[k] == states[k + 1] && regs'[k] == regs[k + 1];
      }
      RegisterAllSteps(states', fmt, regs');
    }
  }

  /**
   * In coherent tables the name `serialize_prolog` writes for a type is the name that
   * loads that type back, and saving a layer of that type under it passes the layer
   * itself (never a null pointer) to that type's saver.
   */
  lemma RegisteredTypeRoundTrips(t: Tables, fmt: Format, l: Layer)
    requires Coherent(t, fmt) && l.dynamicType in t.typeNames
    ensures var k := l.dynamicType;
      t.SerializationName(k).Success? &&
      var s := t.SerializationName(k).value;
      t.Load(s) == Success(LayerLoader(fmt, k)) &&
      t.Save(s, Some(l)) == Success(SaveCall(LayerSaver(fmt, k), Some(l)))
  {
  }

  /**
   * Registering one type under two names leaves the first name loadable while no type
   * maps to it: entries under a superseded name stay in the tables.
   */
  lemma TypeUnderTwoNames(fmt: Format, k: TypeKey)
    ensures var r := RegisterAll(Empty, fmt, [Registration("a", k), Registration("b", k)]);
      r.Load("a").Success? && "a" !in r.typeNames.Values && r.SerializationName(k) == Success("b")
  {
    var regs := [Registration("a", k), Registration("b", k)];
    var r1 := AutoRegistered(Empty, fmt, "a", k);
    var r := AutoRegistered(r1, fmt, "b", k);
    assert regs[1..] == [Registration("b", k)] && regs[1..][1..] == [];
    assert RegisterAll(Empty, fmt, regs) == RegisterAll(r1, fmt, regs[1..]);
    assert RegisterAll(r1, fmt, regs[1..]) == RegisterAll(r, fmt, []);
    assert r.typeNames == map[k := "b"];
  }

  /**
   * Two types under one name: the first type still names itself "s", but saving one of
   * its layers under "s" reaches the second type's saver with a null pointer.
   */
  lemma SharedNameMisdirectsSave(fmt: Format, k1: TypeKey, k2: TypeKey, l: Layer)
    requires k1 != k2 && l.dynamicType == k1
    ensures var r := RegisterAll(Empty, fmt, [Registration("s", k1), Registration("s", k2)]);
      r.SerializationName(k1) == Success("s") &&
      r.Save("s", Some(l)) == Success(SaveCall(LayerSaver(fmt, k2), None))
  {
    var regs := [Registration("s", k1), Registration("s", k2)];
    var r1 := AutoRegistered(Empty, fmt, "s", k1);
    var r := AutoRegistered(r1, fmt, "s", k2);
    assert regs[1..] == [Registration("s", k2)] && regs[1..][1..] == [];
    assert RegisterAll(Empty, fmt, regs) == RegisterAll(r1, fmt, regs[1..]);
    assert RegisterAll(r1, fmt, regs[1..]) == RegisterAll(r, fmt, []);
  }
}
