/**
 * The glue in namespace `detail` and `serialize_prolog`: the per-type loader and
 * saver the registration installs, the registration itself, and the "type" field.
 */
module Glue {
  import opened Wrappers
  import opened Registry
  import opened Archive

  /**
   * The tables after `automatic_layer_generator_register<I, O, T>(s)`: `s` loads a `T`
   * of this format and `typeid(T)` is named `s`. `AutoRegisteredLookups` gives every lookup.
   */
  function AutoRegistered(t: Tables, fmt: Format, s: string, key: TypeKey): (r: Tables)
    ensures r.Load(s) == Success(LayerLoader(fmt, key))
    ensures r.SerializationName(key) == Success(s)
  {
    t.WithLoader(s, LayerLoader(fmt, key))
     .WithType(key, s)
     .WithSaver(key, s, LayerSaver(fmt, key))
  }

  /**
   * Registration as a unit: after it, `s` loads and saves a `T` of this format,
   * `typeid(T)` is named `s`, and every other name and type resolves as before.
   */
  lemma AutoRegisteredLookups(t: Tables, fmt: Format, s: string, key: TypeKey, n: string, k: TypeKey, l: Option<Layer>)
    ensures var r := AutoRegistered(t, fmt, s, key);
      && r.Load(n) == (if n == s then Success(LayerLoader(fmt, key)) else t.Load(n))
      && r.Save(n, l) == (if n == s then Success(SaveCall(LayerSaver(fmt, key), DynamicCast(l, key))) else t.Save(n, l))
      && r.SerializationName(k) == (if k == key then Success(s) else t.SerializationName(k))
  {
  }

  /** The constructor of `automatic_layer_generator_register`: three registrations, in this order. */
  method AutomaticLayerGeneratorRegister(helper: SerializationHelper, key: TypeKey, s: string)
    modifies helper
    ensures helper.Model() == AutoRegistered(old(helper.Model()), helper.format, s, key)
  {
    helper.RegisterLoader(s, LayerLoader(helper.format, key));
    helper.RegisterType(key, s);
    helper.RegisterSaver(key, s, LayerSaver(helper.format, key));
  }

  /**
   * The storage `load_layer_impl` allocates for a `T`, together with the `valid` flag
   * it shares with the deleter of the returned `shared_ptr`.
   */
  class LayerStorage {
    var valid: bool
    ghost var constructed: bool    // T's load-and-construct has completed on this storage
    ghost var freed: bool          // the storage has been deleted
    ghost var destructorRan: bool  // `~T()` has been called on this storage

    /** The destructor is never run, and `valid` never set, on an object not fully constructed. */
    ghost predicate Safe()
      reads this
    {
      (valid ==> constructed) && (destructorRan ==> constructed) && (destructorRan ==> freed)
    }

    /** `new ST()` with `valid` false: raw storage, nothing constructed yet. */
    constructor Allocate()
      ensures Safe()
      ensures !valid && !constructed && !freed && !destructorRan
    {
      valid := false;
      constructed, freed, destructorRan := false, false, false;
    }

    /** The deleter: run `~T()` only if `valid`, and free the storage in any case. */
    method Deleter()
      requires Safe() && !freed
      modifies this
      ensures Safe() && freed
      ensures destructorRan == old(valid)
      ensures valid == old(valid) && constructed == old(constructed)
    {
      if valid {
        destructorRan := true;
      }
      freed := true;
    }
  }

  /**
   * `load_layer_impl<InputArchive, T>`. Populating the storage from the archive is
   * outside this model: `populateSucceeds` says whether it returned or threw. When it
   * throws, the only `shared_ptr` to the storage is released during unwinding and its
   * deleter runs with `valid` still false. `storage` is the block allocated by the call.
   */
  method LoadLayerImpl(populateSucceeds: bool) returns (r: Option<LayerStorage>, ghost storage: LayerStorage)
    ensures fresh(storage) && storage.Safe()
    ensures r.Some? <==> populateSucceeds
    ensures r.Some? ==> r.value == storage
    ensures populateSucceeds ==> storage.valid && storage.constructed && !storage.freed
    ensures !populateSucceeds ==> storage.freed && !storage.destructorRan && !storage.valid
  {
    var block := new LayerStorage.Allocate();
    storage := block;
    if !populateSucceeds {
      block.Deleter();
      return None, storage;
    }
    block.constructed := true;
    block.valid := true;
    r := Some(block);
  }

  /**
   * `save_layer_impl<OutputArchive, T>`: writes the layer under the name registered for
   * `T`. A null `layer` (a failed downcast) is dereferenced by the source; it is excluded.
   */
  method SaveLayerImpl(helper: SerializationHelper, oa: OutputArchive, key: TypeKey, layer: Option<Layer>)
      returns (r: Outcome<NnError>)
    requires layer.Some?
    requires helper.format == oa.format
    modifies oa
    ensures r.Pass? <==> key in helper.typeNames
    ensures r.Pass? ==> oa.entries == old(oa.entries) + [Entry(helper.typeNames[key], LayerBody(layer.value))]
    ensures r.Fail? ==> oa.entries == old(oa.entries) && r.error.message == TypenameNotRegistered
  {
    var name := helper.SerializationName(key);
    if name.Failure? {
      return Fail(name.error);
    }
    oa.entries := oa.entries + [Entry(name.value, LayerBody(layer.value))];
    r := Pass;
  }

  /**
   * `serialize_prolog`: writes the discriminator field "type" holding the name registered
   * for `T`. The name is looked up before anything is written, so an unregistered `T`
   * leaves the archive as it was.
   */
  method SerializeProlog(helper: SerializationHelper, oa: OutputArchive, key: TypeKey)
      returns (r: Outcome<NnError>)
    requires helper.format == oa.format
    modifies oa
    ensures r.Pass? <==> key in helper.typeNames
    ensures r.Pass? ==> oa.entries == old(oa.entries) + [Entry("type", Text(helper.typeNames[key]))]
    ensures r.Fail? ==> oa.entries == old(oa.entries) && r.error.message == TypenameNotRegistered
  {
    var name := helper.SerializationName(key);
    if name.Failure? {
      return Fail(name.error);
    }
    oa.entries := oa.entries + [Entry("type", Text(name.value))];
    r := Pass;
  }
}
