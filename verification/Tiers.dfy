/** Tiers and their entries, as configured. */
module Tiers {
  datatype Entry = Entry(provider: string, model: string, weight: nat, id: string)

  datatype Tier = Tier(name: string, strict: bool, defaultEntry: nat, entries: seq<Entry>)
}
