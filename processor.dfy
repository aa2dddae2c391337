/**
 * The processor-ranking record and the total, defaulting mapping that turns
 * a raw server record into one.
 */
module Processor {
  import opened Options

  /**
   * A raw JSON property as the server may send it: absent from the object,
   * `null`, or a string.
   */
  datatype Raw = Missing | Null | Str(s: string)

  /** JavaScript truthiness of a raw property: only a non-empty string is truthy. */
  predicate Truthy(v: Raw) {
    v.Str? && v.s != ""
  }

  /** `v || d`: the raw string when it is truthy, the default otherwise. */
  function OrDefault(v: Raw, d: string): (r: string)
    ensures Truthy(v) ==> Str(r) == v
    ensures !Truthy(v) ==> r == d
    ensures d != "" ==> r != ""
  {
    match v
    case Str(s) => if s != "" then s else d
    case _ => d
  }

  /** One element of the server's `data` array, before defaulting. */
  datatype RawProcessor = RawProcessor(
    id: Option<int>,
    processor: Raw,
    rating: Raw,
    antutu10: Raw,
    geekbench6: Raw,
    cores: Raw,
    clock: Raw,
    gpu: Raw)

  /**
   * A processor-ranking record. `id` is `number | null`; the timestamps are
   * `None` on every record the fetch mapping builds, since it never sets them.
   */
  datatype Processor = Processor(
    id: Option<int>,
    processor: string,
    rating: string,
    antutu10: string,
    geekbench6: string,
    cores: string,
    clock: string,
    gpu: string,
    createdAt: Option<string>,
    updatedAt: Option<string>)

  const UnknownProcessor := "Unknown Processor"
  const Unrated := "Unrated"
  const NotAvailable := "N/A"
  const UnknownGpu := "Unknown GPU"

  /** The per-record mapping applied to each element of a fetch response. */
  function FromRaw(raw: RawProcessor): Processor {
    Processor(
      raw.id,
      OrDefault(raw.processor, UnknownProcessor),
      OrDefault(raw.rating, Unrated),
      OrDefault(raw.antutu10, NotAvailable),
      OrDefault(raw.geekbench6, NotAvailable),
      OrDefault(raw.cores, NotAvailable),
      OrDefault(raw.clock, NotAvailable),
      OrDefault(raw.gpu, UnknownGpu),
      None, None)
  }

  /** Whether a mapped string field holds the raw value when truthy, else the default. */
  predicate Defaulted(field: string, raw: Raw, d: string) {
    if Truthy(raw) then Str(field) == raw else field == d
  }

  /**
   * Each field of a mapped record: the id is copied, each string field is the
   * raw value when truthy and otherwise its fixed default, no string field is
   * empty, and the timestamps are absent.
   */
  lemma FromRawFields(raw: RawProcessor)
    ensures var p := FromRaw(raw);
      && p.id == raw.id
      && Defaulted(p.processor, raw.processor, "Unknown Processor")
      && Defaulted(p.rating, raw.rating, "Unrated")
      && Defaulted(p.antutu10, raw.antutu10, "N/A")
      && Defaulted(p.geekbench6, raw.geekbench6, "N/A")
      && Defaulted(p.cores, raw.cores, "N/A")
      && Defaulted(p.clock, raw.clock, "N/A")
      && Defaulted(p.gpu, raw.gpu, "Unknown GPU")
      && p.processor != "" && p.rating != "" && p.antutu10 != "" && p.geekbench6 != ""
      && p.cores != "" && p.clock != "" && p.gpu != ""
      && p.createdAt == None && p.updatedAt == None
  {
  }

  /** A missing, null or empty field all map to the same default. */
  lemma FalsyFieldsAgree(raw: RawProcessor, v: Raw, w: Raw)
    requires !Truthy(v) && !Truthy(w)
    ensures FromRaw(raw.(processor := v)) == FromRaw(raw.(processor := w))
    ensures FromRaw(raw.(rating := v)) == FromRaw(raw.(rating := w))
    ensures FromRaw(raw.(antutu10 := v)) == FromRaw(raw.(antutu10 := w))
    ensures FromRaw(raw.(geekbench6 := v)) == FromRaw(raw.(geekbench6 := w))
    ensures FromRaw(raw.(cores := v)) == FromRaw(raw.(cores := w))
    ensures FromRaw(raw.(clock := v)) == FromRaw(raw.(clock := w))
    ensures FromRaw(raw.(gpu := v)) == FromRaw(raw.(gpu := w))
  {
  }

  /**
   * The mapping of a whole response: one record per raw element, in the
   * same order.
   */
  function FromRawAll(raws: seq<RawProcessor>): (ps: seq<Processor>)
    ensures |ps| == |raws|
    ensures forall i :: 0 <= i < |raws| ==> ps[i] == FromRaw(raws[i])
  {
    if raws == [] then [] else [FromRaw(raws[0])] + FromRawAll(raws[1..])
  }

  /**
   * A one-record response carrying only id, processor and rating maps to a
   * record with the remaining fields defaulted.
   */
  lemma PartialRecordDefaults()
    ensures FromRawAll([RawProcessor(Some(1), Str("Snapdragon 8"), Str("A"),
                                     Missing, Missing, Missing, Missing, Missing)])
         == [Processor(Some(1), "Snapdragon 8", "A", "N/A", "N/A", "N/A", "N/A",
                       "Unknown GPU", None, None)]
  {
  }
}
