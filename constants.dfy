/** The fixed catalogue tables: the node software the shop supports and the
    surcharge (in whole dollars) of each RAM, storage and processor upgrade
    over a product's price. */
module Constants {

  /** An entry of a surcharge table: display caption and surcharge. */
  datatype TableEntry = TableEntry(caption: string, price: int)

  const SupportedNodeSoftware: seq<string> :=
    ["Dappnode", "Stereum", "Sedge", "Coincashew", "Blockops"]

  const RamOptions: map<string, TableEntry> := map[
    "16GB" := TableEntry("16GB RAM", 0),
    "32GB" := TableEntry("32GB RAM", 100),
    "64GB" := TableEntry("64GB RAM", 300)
  ]

  const StorageOptions: map<string, TableEntry> := map[
    "2TB SSD" := TableEntry("2TB SSD", 0),
    "4TB SSD" := TableEntry("4TB SSD", 200)
  ]

  const ProcessorOptions: map<string, TableEntry> := map[
    "Core i3" := TableEntry("Core i3", 0),
    "Core i5" := TableEntry("Core i5", 150),
    "Core i7" := TableEntry("Core i7", 300),
    "Core i9" := TableEntry("Core i9", 500)
  ]

  /** The largest surcharge each table can add. */
  const MaxRamSurcharge := 300
  const MaxStorageSurcharge := 200
  const MaxProcessorSurcharge := 500

  /** Every surcharge is between 0 and its table's maximum. */
  lemma SurchargesBounded()
    ensures forall k :: k in RamOptions ==> 0 <= RamOptions[k].price <= MaxRamSurcharge
    ensures forall k :: k in StorageOptions ==> 0 <= StorageOptions[k].price <= MaxStorageSurcharge
    ensures forall k :: k in ProcessorOptions ==> 0 <= ProcessorOptions[k].price <= MaxProcessorSurcharge
  {
  }

  /** The entry-level choice of each dimension costs nothing. */
  lemma EntryLevelIsFree()
    ensures RamOptions["16GB"].price == 0
    ensures StorageOptions["2TB SSD"].price == 0
    ensures ProcessorOptions["Core i3"].price == 0
  {
  }

  /** Bigger RAM and faster processors cost strictly more; 4TB costs 200. */
  lemma SurchargesIncrease()
    ensures RamOptions["16GB"].price < RamOptions["32GB"].price < RamOptions["64GB"].price
    ensures StorageOptions["4TB SSD"].price == 200
    ensures ProcessorOptions["Core i3"].price < ProcessorOptions["Core i5"].price
            < ProcessorOptions["Core i7"].price < ProcessorOptions["Core i9"].price
  {
  }

  /** Five software names are supported and none of them is a key of any
      surcharge table, so the software choice never adds a surcharge. */
  lemma SoftwareHasNoSurcharge()
    ensures |SupportedNodeSoftware| == 5
    ensures forall i :: 0 <= i < |SupportedNodeSoftware| ==>
      SupportedNodeSoftware[i] !in RamOptions &&
      SupportedNodeSoftware[i] !in StorageOptions &&
      SupportedNodeSoftware[i] !in ProcessorOptions
  {
  }
}
