# tiny-dnn layer serialization registry, in Dafny

This project models tiny-dnn's layer serialization registry,
`serialization_helper<InputArchive, OutputArchive>` in `tiny_dnn/util/serialization_helper.h`,
and the glue that fills it. The model covers:

- the registry class and its three tables:
  - `loaders_`: layer name → loader;
  - `savers_`: layer name → saver wrapper;
  - `type_names_`: type → layer name;
- the registration and lookup methods;
- `detail::load_layer_impl` and its `valid`-flag lifecycle;
- `detail::save_layer_impl`;
- `detail::automatic_layer_generator_register`, which registers one name in all three tables;
- `serialize_prolog`, which writes the `"type"` field;
- the registration macros. They register each layer type in both the JSON and the binary
  registry, and name activation variants `layer_name<activation>`.

Files:

- `wrappers.dfy`: the `Option`, `Result` and `Outcome` wrappers. A `Failure` or `Fail`
  stands for a thrown `nn_error`.
- `registry.dfy`:
  - `Registry.Tables` is the three tables as a value. Its functions are the specification:
    what each registration does and what each lookup answers.
  - `Registry.SerializationHelper` is the class. Its three `map` fields are updated in place,
    and each method is proved against the matching `Tables` function.
- `archive.dfy`: an output archive, modelled as the sequence of named values written to it.
- `glue.dfy`: the registration unit, the storage lifecycle of `load_layer_impl`,
  `save_layer_impl` and `serialize_prolog`.
- `startup.dfy`: the registrations of one archive format, run in order at start-up. It proves
  what the registry holds afterwards: the tables agree with each other, every registered name
  resolves, and the last registration of a type sets its name. It also gives two concrete
  registrations. One leaves a loader name that no type is named by (`TypeUnderTwoNames`); the
  tables still agree. The other breaks the agreement and sends a save to the wrong saver
  (`SharedNameMisdirectsSave`).
- `macros.dfy`: the names the macros build, and the macros as methods over the two registries.

Three behaviours of the code are worth stating:

- **Saving a layer under another type's name passes a null pointer.** The saver wrapper
  passes the result of `dynamic_cast` to `save_layer_impl` (line 54). On a type mismatch
  that result is null, and `save_layer_impl` dereferences it (line 132). `Tables.Save`
  reports the pointer the saver receives (`SaveCall.layer`; `None` is null).
  `SaveLayerImpl` is specified only for a non-null layer.
- **A loader name can outlive its type name.** Registration never removes an entry.
  - Registering one type under two names leaves the first name in `loaders_`, but no type
    maps to it any more (`Startup.TypeUnderTwoNames`).
  - Registering two types under one name sends a save of the first type's layer to the
    second type's saver with a null pointer (`Startup.SharedNameMisdirectsSave`).
  - What does hold is `Startup.Coherent`: every name loads and saves one type, and every
    type's name is a name that loads that type. Start-up keeps it when no name is
    registered for two types.
- **The layer body and the `"type"` field are written separately.** `save_layer_impl`
  writes the layer's body under its registered name. `serialize_prolog` writes the
  `"type"` discriminator field. `SaveLayerImpl` and `SerializeProlog` model them this way.

## Model

| member | source | states |
|---|---|---|
| Registry.GeneratorNotFound | tiny_dnn/util/serialization_helper.h:65-66 | the lookup error's message begins with "Failed to generate layer. Generator for " and contains the missing layer name |
| Registry.DynamicCast | tiny_dnn/util/serialization_helper.h:54 | the cast yields the layer itself exactly when the pointer is non-null and the layer's dynamic type is the target type; otherwise it yields null |
| Registry.Tables.WithLoader | tiny_dnn/util/serialization_helper.h:45-49 | after registering `func` under `name`, `load(name)` finds `func`; every other name loads as before; the saver and type tables are untouched |
| Registry.Tables.WithSaver | tiny_dnn/util/serialization_helper.h:51-56 | after registering a saver for `T` under `name`, `save(name, l)` calls it with `dynamic_cast<const T*>(l)`, for every layer; every other name saves as before; the loader and type tables are untouched |
| Registry.Tables.WithType | tiny_dnn/util/serialization_helper.h:58-61 | after `register_type<T>(name)`, `T` is named `name`; every other type keeps its name; the loader and saver tables are untouched |
| Registry.Tables.Load | tiny_dnn/util/serialization_helper.h:63-70 | `load` succeeds exactly when the name is registered, and then yields that loader; otherwise the error mentions the name |
| Registry.Tables.Save | tiny_dnn/util/serialization_helper.h:72-79 | `save` succeeds exactly when the name is registered, and then calls that saver; the saver receives the layer pointer itself exactly when it is non-null and the layer's dynamic type is the registered type, and a null pointer otherwise; a missing name gives an error that mentions the name |
| Registry.Tables.SerializationName | tiny_dnn/util/serialization_helper.h:81-86 | succeeds exactly when the type is registered, and then yields its name; otherwise the error is "Typename is not registered" |
| Registry.SerializationHelper.constructor | tiny_dnn/util/serialization_helper.h:100 | a new registry has three empty tables |
| Registry.SerializationHelper.RegisterLoader | tiny_dnn/util/serialization_helper.h:45-49 | the new tables are the old ones with the loader stored under the name, and the name is last-write-wins (`Tables.WithLoader`) |
| Registry.SerializationHelper.RegisterSaver | tiny_dnn/util/serialization_helper.h:51-56 | the new tables are the old ones with the downcasting saver wrapper stored under the name (`Tables.WithSaver`) |
| Registry.SerializationHelper.RegisterType | tiny_dnn/util/serialization_helper.h:58-61 | the new tables are the old ones with the type mapped to the name (`Tables.WithType`) |
| Registry.SerializationHelper.Load | tiny_dnn/util/serialization_helper.h:63-70 | answers as `Tables.Load` on the current tables and changes no table (no entry is created by indexing) |
| Registry.SerializationHelper.Save | tiny_dnn/util/serialization_helper.h:72-79 | answers as `Tables.Save` on the current tables and changes no table |
| Registry.SerializationHelper.SerializationName | tiny_dnn/util/serialization_helper.h:81-86 | answers as `Tables.SerializationName` on the current tables and changes no table |
| Glue.AutoRegistered | tiny_dnn/util/serialization_helper.h:135-142 | after registering `T` under `s`, `s` loads `T`'s generator and `T` is named `s` |
| Glue.AutoRegisteredLookups | tiny_dnn/util/serialization_helper.h:137-141 | registration as a unit: `s` loads `T`'s generator; `s` saves through `T`'s saver; `T` is named `s`; every other name and type resolves as before |
| Glue.AutomaticLayerGeneratorRegister | tiny_dnn/util/serialization_helper.h:135-142 | the three registrations (loader, then type, then saver) leave the registry holding `AutoRegistered` of the old tables |
| Glue.LayerStorage.Allocate | tiny_dnn/util/serialization_helper.h:110-113 | fresh storage: `valid` is false, nothing is constructed, freed or destroyed |
| Glue.LayerStorage.Deleter | tiny_dnn/util/serialization_helper.h:114-118 | the deleter always frees the storage; it runs the destructor exactly when `valid` is set; it keeps the safety invariant (never destroy what was not constructed) |
| Glue.LoadLayerImpl | tiny_dnn/util/serialization_helper.h:105-126 | when populating fails, the storage is freed without running the destructor and `valid` stays false; when populating succeeds, the result is the constructed storage with `valid` set |
| Glue.SaveLayerImpl | tiny_dnn/util/serialization_helper.h:128-133 | for a registered type, appends exactly one entry (the registered name, the layer); for an unregistered type, fails with "Typename is not registered" and leaves the archive unchanged |
| Glue.SerializeProlog | tiny_dnn/util/serialization_helper.h:146-153 | for a registered type, appends exactly one field named "type" holding the type's registered name; for an unregistered type, fails and writes nothing |
| Startup.RegisterAll | tiny_dnn/util/serialization_helper.h:167-169 | start-up runs the registration objects in order; it never removes a name or a type from any table |
| Startup.StartupFromEmptyIsCoherent | tiny_dnn/util/serialization_helper.h:167-169 | start-up from a new registry leaves it coherent when no name is registered for two types |
| Startup.AutoRegisteredKeepsCoherent | tiny_dnn/util/serialization_helper.h:137-141 | one registration keeps the tables coherent, unless its name is already registered for another type |
| Startup.StartupKeepsCoherent | tiny_dnn/util/serialization_helper.h:167-169 | running any list of registrations, in which no name belongs to two types, keeps the tables coherent |
| Startup.StartupRegistersAll | tiny_dnn/util/serialization_helper.h:137-141 | after start-up, every registered name loads and saves and every registered type has a name |
| Startup.StartupKeepsName | tiny_dnn/util/serialization_helper.h:58-61 | registrations of other types leave a type's name as it was |
| Startup.StartupLastWriteWins | tiny_dnn/util/serialization_helper.h:60 | a type is named by the last registration of that type |
| Startup.StartupKeepsLoad | tiny_dnn/util/serialization_helper.h:45-49 | registrations under other names leave what a name loads as it was |
| Startup.StartupLastLoad | tiny_dnn/util/serialization_helper.h:46 | a name loads the type of the last registration under that name |
| Startup.RegisterAllSteps | tiny_dnn/util/serialization_helper.h:167-169 | states that step through the registrations one at a time end in the start-up result |
| Startup.RegisteredTypeRoundTrips | tiny_dnn/util/serialization_helper.h:146-153 | in coherent tables, the name `serialize_prolog` writes for a type loads that type back, and saving one of its layers under that name passes the layer itself, not a null pointer |
| Startup.TypeUnderTwoNames | tiny_dnn/util/serialization_helper.h:137-141 | one type registered under "a" then "b": "a" still loads, no type is named "a", and the type is named "b" |
| Startup.SharedNameMisdirectsSave | tiny_dnn/util/serialization_helper.h:53-54 | two types registered under one name: the first type is still named "s", but saving its layer under "s" reaches the second type's saver with a null pointer |
| Macros.ActivationRegistrations | tiny_dnn/util/serialization_helper.h:185-193 | the eight registrations, in the macro's order, each named `layer_name<activation>` for the type `layer_type<activation>` |
| Macros.VariantName | tiny_dnn/util/serialization_helper.h:172 | the variant name is the layer name, then '<', then the activation, then '>' |
| Macros.VariantNameInjective | tiny_dnn/util/serialization_helper.h:172 | two variants of one layer have the same name exactly when they have the same activation |
| Macros.VariantNamesUnambiguous | tiny_dnn/util/serialization_helper.h:172 | for layer names without '<', a variant name determines both the layer name and the activation |
| Macros.PlainNameIsNoVariant | tiny_dnn/util/serialization_helper.h:171-179 | a plain layer name without '<' never equals an activation variant's name |
| Macros.ActivationsDistinct | tiny_dnn/util/serialization_helper.h:186-193 | the eight activations are pairwise different |
| Macros.ActivationVariantsResolve | tiny_dnn/util/serialization_helper.h:185-193 | after the macro runs on any registry, whatever it held before, each variant's type is named `layer_name<activation>`, and that name loads the variant's generator |
| Macros.RegisterLayerSerializerBody | tiny_dnn/util/serialization_helper.h:167-169 | the same name is registered for the same type in both the JSON and the binary registry |
| Macros.RegisterLayerSerializerWithActivation | tiny_dnn/util/serialization_helper.h:171-172 | `layer_type<activation>` is registered under `layer_name<activation>` in both registries |
| Macros.RegisterLayerSerializerWithActivations | tiny_dnn/util/serialization_helper.h:185-193 | each registry ends as start-up over the macro's eight registrations, in the macro's order |
| Macros.ActivationChain | tiny_dnn/util/serialization_helper.h:186-193 | eight registrations made one after another equal start-up over the macro's list |

## Left out

- Archive I/O through cereal is left out: `cereal::make_nvp`, `LoadAndConstructLoadWrapper`,
  and the JSON and binary encodings. The output archive is the sequence of named values
  written to it.
- Populating a layer from an input archive is left out. `LoadLayerImpl` takes whether it
  returns or throws as the parameter `populateSucceeds`.
- `start_loading_layer` and `finish_loading_layer` (lines 155-163) are left out. They only
  call into the archive library.
- `Tables.Load` and `Tables.Save` return the loader or saver they dispatch to, with the
  argument `save` passes. They do not run it, because running a loader or saver is archive I/O.
- Loaders and savers are opaque handles. The model does not include the bodies of
  caller-supplied ones.
- `dynamic_cast` is modelled as exact equality of the dynamic type with the target type. The
  concrete layer classes and their inheritance are not part of this model.
- SaveLayerImpl: it requires a non-null layer. The source dereferences a null pointer in that
  case, so the behaviour is undefined.
- The singleton `get_instance` and the order in which static registration objects are
  initialised are left out. The two registries are explicit instances. Start-up is the list
  of registrations in the order they run.
- Raw storage (`std::aligned_storage`, `reinterpret_cast`, `void*`) is left out. The
  lifecycle of one storage block is ghost state: constructed, freed, destroyed. The `valid`
  flag is a real field.
- The exception unwinding that runs the deleter when populating throws is not modelled as
  such. `LoadLayerImpl` calls the deleter on that path.
