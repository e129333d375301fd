/** The older, table-driven price of a configured node: the product's price
    plus the RAM, storage and processor surcharges from the fixed tables.
    Unset dimensions take the entry-level default; a label the table does not
    know adds nothing. */
module LegacyPrice {
  import opened Wrappers
  import opened Constants

  /** The configuration object; a `None` field is `undefined`. */
  datatype Config = Config(
    software: Option<string>,
    ram: Option<string>,
    storage: Option<string>,
    processor: Option<string>)

  const DefaultRam := "16GB"
  const DefaultStorage := "2TB SSD"
  const DefaultProcessor := "Core i3"

  /** `TABLE[key]?.price || 0` */
  function TableSurcharge(table: map<string, TableEntry>, key: string): (r: int) {
    if key in table then table[key].price else 0
  }

  /** `calculatePrice(price, config)` */
  function CalculatePrice(price: int, config: Config): (r: int)
    ensures price <= r <= price + MaxRamSurcharge + MaxStorageSurcharge + MaxProcessorSurcharge
  {
    SurchargesBounded();
    var ram := config.ram.GetOr(DefaultRam);
    var storage := config.storage.GetOr(DefaultStorage);
    var processor := config.processor.GetOr(DefaultProcessor);
    price + TableSurcharge(RamOptions, ram) + TableSurcharge(StorageOptions, storage)
          + TableSurcharge(ProcessorOptions, processor)
  }

  /** Leaving a dimension out is the same as choosing its default, and the
      all-default configuration costs exactly the price. */
  lemma DefaultsApply(price: int, config: Config)
    ensures CalculatePrice(price, config) == CalculatePrice(price, Config(
      config.software,
      Some(config.ram.GetOr(DefaultRam)),
      Some(config.storage.GetOr(DefaultStorage)),
      Some(config.processor.GetOr(DefaultProcessor))))
    ensures CalculatePrice(price, Config(None, None, None, None)) == price
  {
  }

  /** An unknown label (for instance "128GB") contributes no surcharge: the
      result is as if the entry-level option had been chosen. */
  lemma UnknownLabelAddsZero(price: int, config: Config, unknown: string)
    requires unknown !in RamOptions
    ensures CalculatePrice(price, config.(ram := Some(unknown)))
         == CalculatePrice(price, config.(ram := Some(DefaultRam)))
  {
  }

  /** The software choice never changes the result, and what a
      configuration adds does not depend on the price it is added to. */
  lemma SoftwareHasNoEffect(price: int, config: Config, software: Option<string>)
    ensures CalculatePrice(price, config.(software := software)) == CalculatePrice(price, config)
    ensures CalculatePrice(price, config) - price == CalculatePrice(0, config)
  {
  }

  /** Price 500 with 32GB RAM and every other dimension left out costs 600;
      the top configuration adds 1000. */
  lemma Examples()
    ensures CalculatePrice(500, Config(None, Some("32GB"), None, None)) == 600
    ensures CalculatePrice(500, Config(Some("Dappnode"), Some("64GB"), Some("4TB SSD"), Some("Core i9"))) == 1500
  {
  }
}
