/**
  The records the item-patching pass of the Configurable Meds plugin reads
  and writes: the already-parsed configuration, the item templates of the
  server database and the English locale table.
 */
module ItemData {

  /** A value that may be missing. `None` stands for a JavaScript `undefined`:
      an absent property, or `undefined` written into one. */
  datatype Option<+T> = None | Some(value: T)

  type ItemId = string

  /** The parent class of an item template. The four classes the pass tests
      against are distinct constants; every other parent is `OtherClass`. */
  datatype Category =
    | Stimulator
    | Medkit
    | Medical
    | Drugs
    | OtherClass(classId: string)

  /** The morphine injector. The host data files it under the drugs class,
      yet the plugin treats it as a stimulant: the stim rule takes it in and
      the medical-uses rule leaves it out when it sits under drugs. */
  const MorphineId: ItemId := "544fb3f34bdc2d03748b456a"

  /** The `_props` bag of an item: the usage / hit-point pool the pass
      rewrites, and every other property, kept abstract. */
  datatype Props = Props(maxHpResource: Option<int>, others: map<string, int>)

  /** One item template: its id, its parent class and its properties. */
  datatype Item = Item(id: ItemId, parent: Category, props: Props)

  /** The plugin's configuration document, already parsed. The blacklists are
      JSON arrays of item ids; the two name-keyed tables map an item's
      English display name to the value to write. */
  datatype Config = Config(
    enableBlacklist: bool,
    blacklistedStims: seq<ItemId>,
    blacklistedMedkits: seq<ItemId>,
    blacklistedMedical: seq<ItemId>,
    modifyStims: bool,
    stimUses: int,
    modifyMedical: bool,
    medkitHp: map<string, int>,
    medicalUses: map<string, int>,
    debugLogChangedItems: bool)

  /** The English locale table: locale key to display text. */
  type Locale = map<string, string>

  /** What a template literal makes of an `undefined` value. */
  const UndefinedText: string := "undefined"

  /** The locale key under which an item's display name is stored. */
  function NameKey(id: ItemId): string
  {
    id + " Name"
  }

  /** The display name the pass uses for an item: the locale text, or the
      text "undefined" when the locale has no entry for the item. */
  function LocalName(locale: Locale, id: ItemId): string
  {
    if NameKey(id) in locale then locale[NameKey(id)] else UndefinedText
  }

  /** Indexing a name-keyed configuration table: a missing key reads as
      `undefined` rather than failing. */
  function Lookup(table: map<string, int>, key: string): Option<int>
  {
    if key in table then Some(table[key]) else None
  }
}
