/**
 * The registration macros: each registers a layer type under a name in both the JSON
 * and the binary registry, and the activation variants build the name
 * `layer_name<activation>`.
 */
module Macros {
  import opened Wrappers
  import opened Registry
  import opened Glue
  import opened Startup

  /** The name `#layer_name "<" #activation_type ">"` of a layer template's activation variant. */
  function VariantName(layerName: string, activation: string): (r: string)
    ensures |r| == |layerName| + |activation| + 2
    ensures r[..|layerName|] == layerName && r[|layerName|] == '<'
    ensures r[|layerName| + 1..|r| - 1] == activation && r[|r| - 1] == '>'
  {
    layerName + "<" + activation + ">"
  }

  /** The activations `CNN_REGISTER_LAYER_SERIALIZER_WITH_ACTIVATIONS` registers, in its order. */
  const Activations: seq<string> :=
    ["tan_h", "softmax", "identity", "sigmoid", "relu", "leaky_relu", "elu", "tan_hp1m2"]

  /** The registrations that macro expands to for `layer_type` = `template` and `layer_name`. */
  function ActivationRegistrations(template: nat, layerName: string): (regs: seq<Registration>)
    ensures |regs| == |Activations|
    ensures forall i :: 0 <= i < |regs| ==>
      regs[i] == Registration(VariantName(layerName, Activations[i]), TemplateInstance(template, Activations[i]))
  {
    [Registration(VariantName(layerName, "tan_h"), TemplateInstance(template, "tan_h")),
     Registration(VariantName(layerName, "softmax"), TemplateInstance(template, "softmax")),
     Registration(VariantName(layerName, "identity"), TemplateInstance(template, "identity")),
     Registration(VariantName(layerName, "sigmoid"), TemplateInstance(template, "sigmoid")),
     Registration(VariantName(layerName, "relu"), TemplateInstance(template, "relu")),
     Registration(VariantName(layerName, "leaky_relu"), TemplateInstance(template, "leaky_relu")),
     Registration(VariantName(layerName, "elu"), TemplateInstance(template, "elu")),
     Registration(VariantName(layerName, "tan_hp1m2"), TemplateInstance(template, "tan_hp1m2"))]
  }

  /** Two variants of one layer have the same name only if they have the same activation. */
  lemma VariantNameInjective(layerName: string, a: string, b: string)
    ensures VariantName(layerName, a) == VariantName(layerName, b) <==> a == b
  {
  }

  /**
   * When layer names contain no '<' (they are stringised identifiers), a variant name
   * determines both its layer name and its activation.
   */
  lemma VariantNamesUnambiguous(l1: string, a1: string, l2: string, a2: string)
    requires '<' !in l1 && '<' !in l2
    ensures VariantName(l1, a1) == VariantName(l2, a2) <==> l1 == l2 && a1 == a2
  {
  }

  /** A plain layer name (without '<') is never the name of an activation variant. */
  lemma PlainNameIsNoVariant(plain: string, layerName: string, activation: string)
    requires '<' !in plain
    ensures plain != VariantName(layerName, activation)
  {
  }

  /** The eight activations are pairwise different. */
  lemma ActivationsDistinct()
    ensures forall i, j :: 0 <= i < j < |Activations| ==> Activations[i] != Activations[j]
  {
  }

  /**
   * After `CNN_REGISTER_LAYER_SERIALIZER_WITH_ACTIVATIONS` on any registry, every
   * activation variant is named `layer_name<activation>`, and that name loads it back,
   * whatever was registered under those names before.
   */
  lemma ActivationVariantsResolve(t: Tables, fmt: Format, template: nat, layerName: string, i: nat)
    requires i < |Activations|
    ensures var r := RegisterAll(t, fmt, ActivationRegistrations(template, layerName));
      var key := TemplateInstance(template, Activations[i]);
      r.SerializationName(key) == Success(VariantName(layerName, Activations[i])) &&
      r.Load(VariantName(layerName, Activations[i])) == Success(LayerLoader(fmt, key))
  {
    var regs := ActivationRegistrations(template, layerName);
    ActivationsDistinct();
    forall j | i < j < |regs| ensures regs[j].key != regs[i].key && regs[j].name != regs[i].name {
      VariantNameInjective(layerName, Activations[i], Activations[j]);
    }
    StartupLastWriteWins(t, fmt, regs, i);
    StartupLastLoad(t, fmt, regs, i);
  }

  /**
   * `CNN_REGISTER_LAYER_SERIALIZER_BODY` (and `CNN_REGISTER_LAYER_SERIALIZER`, which
   * passes the stringised layer name): the same registration in both registries.
   */
  method RegisterLayerSerializerBody(json: SerializationHelper, binary: SerializationHelper,
                                     layerType: TypeKey, layerName: string)
    requires json.format == Json && binary.format == Binary
    modifies json, binary
    ensures json.Model() == AutoRegistered(old(json.Model()), Json, layerName, layerType)
    ensures binary.Model() == AutoRegistered(old(binary.Model()), Binary, layerName, layerType)
  {
    AutomaticLayerGeneratorRegister(json, layerType, layerName);
    AutomaticLayerGeneratorRegister(binary, layerType, layerName);
  }

  /** `CNN_REGISTER_LAYER_SERIALIZER_WITH_ACTIVATION`: `template<activation>` under `layer_name<activation>`. */
  method RegisterLayerSerializerWithActivation(json: SerializationHelper, binary: SerializationHelper,
                                               template: nat, activation: string, layerName: string)
    requires json.format == Json && binary.format == Binary
    modifies json, binary
    ensures json.Model() == AutoRegistered(old(json.Model()), Json,
      VariantName(layerName, activation), TemplateInstance(template, activation))
    ensures binary.Model() == AutoRegistered(old(binary.Model()), Binary,
      VariantName(layerName, activation), TemplateInstance(template, activation))
  {
    RegisterLayerSerializerBody(json, binary, TemplateInstance(template, activation),
      VariantName(layerName, activation));
  }

  /** `CNN_REGISTER_LAYER_SERIALIZER_WITH_ACTIVATIONS`: the eight variants, in the macro's order. */
  method RegisterLayerSerializerWithActivations(json: SerializationHelper, binary: SerializationHelper,
                                                template: nat, layerName: string)
    requires json.format == Json && binary.format == Binary
    modifies json, binary
    ensures json.Model() == RegisterAll(old(json.Model()), Json, ActivationRegistrations(template, layerName))
    ensures binary.Model() == RegisterAll(old(binary.Model()), Binary, ActivationRegistrations(template, layerName))
  {
    ghost var json0, binary0 := json.Model(), binary.Model();
    RegisterLayerSerializerWithActivation(json, binary, template, "tan_h", layerName);
    ghost var json1, binary1 := json.Model(), binary.Model();
    RegisterLayerSerializerWithActivation(json, binary, template, "softmax", layerName);
    ghost var json2, binary2 := json.Model(), binary.Model();
    RegisterLayerSerializerWithActivation(json, binary, template, "identity", layerName);
    ghost var json3, binary3 := json.Model(), binary.Model();
    RegisterLayerSerializerWithActivation(json, binary, template, "sigmoid", layerName);
    ghost var json4, binary4 := json.Model(), binary.Model();
    RegisterLayerSerializerWithActivation(json, binary, template, "relu", layerName);
    ghost var json5, binary5 := json.Model(), binary.Model();
    RegisterLayerSerializerWithActivation(json, binary, template, "leaky_relu", layerName);
    ghost var json6, binary6 := json.Model(), binary.Model();
    RegisterLayerSerializerWithActivation(json, binary, template, "elu", layerName);
    ghost var json7, binary7 := json.Model(), binary.Model();
    RegisterLayerSerializerWithActivation(json, binary, template, "tan_hp1m2", layerName);
    ghost var json8, binary8 := json.Model(), binary.Model();
    ActivationChain(json0, json1, json2, json3, json4, json5, json6, json7, json8, Json, template, layerName);
    ActivationChain(binary0, binary1, binary2, binary3, binary4, binary5, binary6, binary7, binary8, Binary, template, layerName);
  }

  /** The eight registrations of the macro, one after the other, are `ActivationRegistrations` run in order. */
  lemma ActivationChain(t0: Tables, t1: Tables, t2: Tables, t3: Tables, t4: Tables,
                        t5: Tables, t6: Tables, t7: Tables, t8: Tables,
                        fmt: Format, template: nat, layerName: string)
    requires t1 == AutoRegistered(t0, fmt, VariantName(layerName, "tan_h"), TemplateInstance(template, "tan_h"))
    requires t2 == AutoRegistered(t1, fmt, VariantName(layerName, "softmax"), TemplateInstance(template, "softmax"))
    requires t3 == AutoRegistered(t2, fmt, VariantName(layerName, "identity"), TemplateInstance(template, "identity"))
    requires t4 == AutoRegistered(t3, fmt, VariantName(layerName, "sigmoid"), TemplateInstance(template, "sigmoid"))
    requires t5 == AutoRegistered(t4, fmt, VariantName(layerName, "relu"), TemplateInstance(template, "relu"))
    requires t6 == AutoRegistered(t5, fmt, VariantName(layerName, "leaky_relu"), TemplateInstance(template, "leaky_relu"))
    requires t7 == AutoRegistered(t6, fmt, VariantName(layerName, "elu"), TemplateInstance(template, "elu"))
    requires t8 == AutoRegistered(t7, fmt, VariantName(layerName, "tan_hp1m2"), TemplateInstance(template, "tan_hp1m2"))
    ensures t8 == RegisterAll(t0, fmt, ActivationRegistrations(template, layerName))
  {
    RegisterAllSteps([t0, t1, t2, t3, t4, t5, t6, t7, t8], fmt, ActivationRegistrations(template, layerName));
  }
}
