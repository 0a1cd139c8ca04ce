/**
 * A stand-in for the output archive the registry's savers write to: the archive is
 * the sequence of name-value pairs written so far, in order.
 */
module Archive {
  import opened Registry

  datatype Value = Text(text: string) | LayerBody(layer: Layer)

  /** One `cereal::make_nvp(name, value)` written to the archive. */
  datatype Entry = Entry(name: string, value: Value)

  class OutputArchive {
    const format: Format
    var entries: seq<Entry>

    constructor (format: Format)
      ensures this.format == format && entries == []
    {
      this.format := format;
      entries := [];
    }
  }
}
