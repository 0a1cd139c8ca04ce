/**
 * The layer serialization registry `serialization_helper<InputArchive, OutputArchive>`:
 * three tables filled at start-up and consulted when a layer is loaded or saved.
 */
module Registry {
  import opened Wrappers

  /** The archive pair a registry instance is specialised for (the template arguments). */
  datatype Format = Json | Binary

  /**
   * A `std::type_index`: the identity of a concrete layer type, either a plain
   * class or a layer template instantiated with an activation type.
   */
  datatype TypeKey = ClassType(id: nat) | TemplateInstance(template: nat, activation: string)

  /** A layer object; only its dynamic type matters to the registry. */
  datatype Layer = Layer(dynamicType: TypeKey, id: nat)

  /**
   * A loader `std::function<std::shared_ptr<layer>(InputArchive&)>`: either the
   * generator the registration glue installs for a type, or one supplied by a caller.
   */
  datatype LoadFn = LayerLoader(format: Format, layerType: TypeKey) | CustomLoader(id: nat)

  /** A saver `std::function<void(OutputArchive&, const T*)>`. */
  datatype SaveFn = LayerSaver(format: Format, layerType: TypeKey) | CustomSaver(id: nat)

  /** The type-erased closure `register_saver<T>` stores: it remembers `T` and the saver. */
  datatype Saver = Saver(target: TypeKey, func: SaveFn)

  /** What `save` ends up calling: `func(ar, dynamic_cast<const T*>(l))`; `None` is a null pointer. */
  datatype SaveCall = SaveCall(func: SaveFn, layer: Option<Layer>)

  /** The exception `nn_error`. */
  datatype NnError = NnError(message: string)

  const GeneratorNotFoundPrefix: string := "Failed to generate layer. Generator for "
  const GeneratorNotFoundSuffix: string :=
    " is not found.\nPlease use CNN_REGISTER_LAYER_DESERIALIZER macro to register appropriate generator"
  const TypenameNotRegistered: string := "Typename is not registered"

  /** `name` occurs somewhere in `message`. */
  predicate Mentions(message: string, name: string) {
    exists i :: 0 <= i <= |message| && name <= message[i..]
  }

  /** The error `load` and `save` throw for an unknown layer name; it names that layer. */
  function GeneratorNotFound(layerName: string): (e: NnError)
    ensures Mentions(e.message, layerName)
    ensures GeneratorNotFoundPrefix <= e.message
  {
    var message := GeneratorNotFoundPrefix + layerName + GeneratorNotFoundSuffix;
    assert layerName <= message[|GeneratorNotFoundPrefix|..];
    NnError(message)
  }

  /**
   * `dynamic_cast<const T*>(l)` on a layer pointer (`None` is null): the layer itself when
   * its dynamic type is `T`, and null for a null pointer or a layer of another type.
   */
  function DynamicCast(l: Option<Layer>, t: TypeKey): (r: Option<Layer>)
    ensures r.Some? <==> l.Some? && l.value.dynamicType == t
    ensures r.Some? ==> r == l
  {
    if l.Some? && l.value.dynamicType == t then l else None
  }

  /**
   * The state of one registry: `loaders_`, `savers_` and `type_names_`.
   * The functions below are the specification the class methods are proved against.
   */
  datatype Tables = Tables(
    loaders: map<string, LoadFn>,
    savers: map<string, Saver>,
    typeNames: map<TypeKey, string>)
  {
    /** `loaders_[name] = func`: the new loader is found, every other name is as before. */
    function WithLoader(name: string, func: LoadFn): (r: Tables)
      ensures r.Load(name) == Success(func)
      ensures forall n :: n != name ==> r.Load(n) == Load(n)
      ensures r.savers == savers && r.typeNames == typeNames
    {
      this.(loaders := loaders[name := func])
    }

    /** `savers_[name] = wrapper`, where the wrapper downcasts to `t` and calls `func`. */
    function WithSaver(t: TypeKey, name: string, func: SaveFn): (r: Tables)
      ensures forall l :: r.Save(name, l) == Success(SaveCall(func, DynamicCast(l, t)))
      ensures forall n, l :: n != name ==> r.Save(n, l) == Save(n, l)
      ensures r.loaders == loaders && r.typeNames == typeNames
    {
      this.(savers := savers[name := Saver(t, func)])
    }

    /** `type_names_[typeid(T)] = name`. */
    function WithType(t: TypeKey, name: string): (r: Tables)
      ensures r.SerializationName(t) == Success(name)
      ensures forall k :: k != t ==> r.SerializationName(k) == SerializationName(k)
      ensures r.loaders == loaders && r.savers == savers
    {
      this.(typeNames := typeNames[t := name])
    }

    /** `load`: the loader registered under `layerName`, or `nn_error` naming the layer. */
    function Load(layerName: string): (r: Result<LoadFn, NnError>)
      ensures r.Success? <==> layerName in loaders
      ensures r.Success? ==> r.value == loaders[layerName]
      ensures r.Failure? ==> Mentions(r.error.message, layerName)
    {
      if layerName !in loaders then Failure(GeneratorNotFound(layerName))
      else Success(loaders[layerName])
    }

    /**
     * `save`: the call the saver under `layerName` makes with the pointer `l` (`None` is
     * null), or `nn_error` naming the layer.
     */
    function Save(layerName: string, l: Option<Layer>): (r: Result<SaveCall, NnError>)
      ensures r.Success? <==> layerName in savers
      ensures r.Success? ==> r.value.func == savers[layerName].func
      ensures r.Success? ==> (r.value.layer.Some? <==> l.Some? && l.value.dynamicType == savers[layerName].target)
      ensures r.Success? && r.value.layer.Some? ==> r.value.layer == l
      ensures r.Failure? ==> Mentions(r.error.message, layerName)
    {
      if layerName !in savers then Failure(GeneratorNotFound(layerName))
      else
        var saver := savers[layerName];
        Success(SaveCall(saver.func, DynamicCast(l, saver.target)))
    }

    /** `serialization_name`: the name registered for `index`, or "Typename is not registered". */
    function SerializationName(index: TypeKey): (r: Result<string, NnError>)
      ensures r.Success? <==> index in typeNames
      ensures r.Success? ==> r.value == typeNames[index]
      ensures r.Failure? ==> r.error.message == TypenameNotRegistered
    {
      if index !in typeNames then Failure(NnError(TypenameNotRegistered))
      else Success(typeNames[index])
    }
  }

  /** A registry with nothing registered, as the private constructor leaves it. */
  const Empty: Tables := Tables(map[], map[], map[])

  /** One registry instance; `format` stands for its archive template arguments. */
  class SerializationHelper {
    const format: Format
    var loaders: map<string, LoadFn>
    var savers: map<string, Saver>
    var typeNames: map<TypeKey, string>

    /** The three tables as a value. */
    function Model(): Tables
      reads this
    {
      Tables(loaders, savers, typeNames)
    }

    constructor (format: Format)
      ensures this.format == format
      ensures Model() == Empty
    {
      this.format := format;
      loaders, savers, typeNames := map[], map[], map[];
    }

    method RegisterLoader(name: string, func: LoadFn)
      modifies this
      ensures Model() == old(Model()).WithLoader(name, func)
    {
      loaders := loaders[name := func];
    }

    method RegisterSaver(t: TypeKey, name: string, func: SaveFn)
      modifies this
      ensures Model() == old(Model()).WithSaver(t, name, func)
    {
      savers := savers[name := Saver(t, func)];
    }

    method RegisterType(t: TypeKey, name: string)
      modifies this
      ensures Model() == old(Model()).WithType(t, name)
    {
      typeNames := typeNames[t := name];
    }

    /** Looks the name up before indexing, so no entry is ever created; the tables stay as they are. */
    method Load(layerName: string) returns (r: Result<LoadFn, NnError>)
      ensures r == Model().Load(layerName)
    {
      if layerName !in loaders {
        return Failure(GeneratorNotFound(layerName));
      }
      r := Success(loaders[layerName]);
    }

    method Save(layerName: string, l: Option<Layer>) returns (r: Result<SaveCall, NnError>)
      ensures r == Model().Save(layerName, l)
    {
      if layerName !in savers {
        return Failure(GeneratorNotFound(layerName));
      }
      var saver := savers[layerName];
      r := Success(SaveCall(saver.func, DynamicCast(l, saver.target)));
    }

    method SerializationName(index: TypeKey) returns (r: Result<string, NnError>)
      ensures r == Model().SerializationName(index)
    {
      if index !in typeNames {
        return Failure(NnError(TypenameNotRegistered));
      }
      r := Success(typeNames[index]);
    }
  }
}
