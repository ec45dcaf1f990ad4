# Configurable Meds: the item-patching pass

Configurable Meds is a load-time plugin for a moddable game server. After the
server database is loaded, the plugin scans every item template once and
rewrites the usage / hit-point pool (`MaxHpResource`) of stims, medkits and
other medical items. The configuration says which groups to touch and which
values to write. This project models that scan as a pure function and proves
which items it changes, to what value, and what its counters mean.

The scan takes an already-parsed configuration, the item list and the English
locale table. For each item, in order:

1. Blacklist. If the blacklist is enabled and the item id is in any of the
   three lists, the item is skipped.
2. Stim rule. It applies when `modify_stims` is on and the parent is the
   stimulator class or the id is the morphine injector
   (`544fb3f34bdc2d03748b456a`). It writes `stim_uses`.
3. Medkit rule. It applies when `modify_medical` is on and the parent is the
   medkit class. It writes `medkit_hp[name]`.
4. Medical-uses rule. It applies when `modify_medical` is on and the parent is
   the medical class, or is the drugs class with an id other than the morphine
   injector. It writes `medical_uses[name]`.

Rules 2 to 4 are independent `if` blocks on the same field, so the last rule
that fires sets the value. `name` is the item's English display name. When the
locale has no entry for the item, the name is the text `undefined`. A name
missing from a table writes `undefined` into the field. Each rule that fires
adds one to its counter and, with `debug_log_changed_items`, logs one record.
The summary line reports the stim count and, as one total, medkits plus
medical items.

Files:

- `item_data.dfy` (module `ItemData`): items, categories, configuration,
  locale names and table lookups.
- `patcher.dfy` (module `Patcher`): the rules, the per-item loop body
  `PatchItem`, the whole pass `Patch`, the counters and the summary.
- `properties.dfy` (module `PatchProperties`): lemmas about the whole pass.
- `pass_loop.dfy` (module `PassLoop`): the scan as the plugin writes it. It is
  a loop with three mutable counters, a `continue` for blacklisted items, and
  the three rule blocks inlined. It is proved equal to `Patch`.

`Patch` is defined on the list without its last item, like the loop's growing
prefix. Each counter is checked against `CountFiring`, an independent count
taken from the front of the list.

## Model

| member | source | states |
|---|---|---|
| Patcher.PatchItem | src/mod.ts:62-118 | For one item: a rule fires exactly when the item is not skipped, its flag is on and its category test holds. Only `MaxHpResource` may change. The final value is that of the last rule that fired (medical uses, then medkit, then stim), or the old value if none fired. The log holds one record per fired rule, in rule order, when debug logging is on, and none otherwise. |
| Patcher.Patch | src/mod.ts:55-119 | The pass keeps the list length and patches item `i` independently of the others. Each counter equals the number of items its rule fired on. With debug logging there is one log record per counted change; without it the log is empty. |
| PassLoop.RunPass | src/mod.ts:55-119 | The loop, with its `continue` on blacklisted items and its running counters, returns exactly the functional pass: the same items, counters and log. The stim counter is the number of stim-rule firings. The two medical counters add up to the number of medical items changed. |
| PassLoop.RuleBlocks | src/mod.ts:73-118 | For an item that passed the blacklist, the three inlined `if` blocks leave the value, log records and counter increments of `PatchItem`. |
| PatchProperties.PatchConcat | src/mod.ts:60-119 | The pass over `a + b` equals the passes over `a` and `b` joined. Items, counters and logs all concatenate or add. |
| PatchProperties.SkippedItemChangesNothing | src/mod.ts:66-71 | With the blacklist enabled, inserting a listed item anywhere in the input inserts it unchanged into the output. Every counter and the log stay as they were. |
| PatchProperties.BlacklistedItemUnchanged | src/mod.ts:67-71 | With the blacklist enabled, an item on any of the three lists comes out equal to its input, and no rule fires on it. |
| PatchProperties.DisabledBlacklistIgnored | src/mod.ts:67-71 | With the blacklist disabled, replacing the three lists by any other lists leaves the whole result unchanged. |
| PatchProperties.StimRuleSetsStimUses | src/mod.ts:74-86 | An item the stim rule fires on ends with `stim_uses`, unless the medical flag is on and its parent is the medkit or medical class. |
| PatchProperties.MorphineUnderDrugsKeepsStimUses | src/mod.ts:107 | The morphine id under the drugs class is never matched by either medical rule. If it is not skipped and stims are enabled, it ends with `stim_uses`; otherwise it is unchanged. |
| PatchProperties.MorphineUnderMedicalTakesMedicalUses | src/mod.ts:76-111 | The conjunction binds tighter than the disjunction, so the morphine id under the medical class still matches the medical-uses rule. That rule runs after the stim rule and decides the value. The stim rule also fires exactly when stims are enabled. |
| PatchProperties.MedkitRuleSetsMedkitHp | src/mod.ts:94-98 | A medkit that is not skipped, with medical changes on, ends with `medkit_hp[name]`. A name missing from the table leaves the field undefined; no error is raised. |
| PatchProperties.MedicalRuleSetsMedicalUses | src/mod.ts:107-111 | The same holds for a medical-class item, or a drugs item other than morphine, with `medical_uses[name]`. |
| PatchProperties.NamelessItemUsesUndefinedKey | src/mod.ts:64 | An item with no English name is looked up under the key `undefined`. A medkit or medical item then gets that table entry, if there is one. |
| PatchProperties.OnlyMaxHpResourceWritten | src/mod.ts:80-111 | Every output item has the id, parent and other properties of its input item. |
| PatchProperties.UnmatchedItemUnchanged | src/mod.ts:74-118 | An item on which no rule fires comes out unchanged. |
| PatchProperties.NoRuleEnabledIsIdentity | src/mod.ts:74-90 | With `modify_stims` and `modify_medical` both off, the output items equal the input, all counters are zero and nothing is logged. |
| PatchProperties.MedicalRulesExclusive | src/mod.ts:94-107 | The medkit and medical-uses rules never both fire on one item. |
| PatchProperties.RulesOverlapOnlyOnMorphine | src/mod.ts:76-107 | On any item other than the morphine id, at most one rule fires. |
| PatchProperties.SummaryCountsChangedItems | src/mod.ts:121 | The summary reports the stim count. Its medical total equals the number of distinct items that either medical rule changed. |
| PatchProperties.PatchItemIdempotent | src/mod.ts:62-118 | Running the loop body again on an item it has already patched gives the same outcome. |
| PatchProperties.PatchIdempotent | src/mod.ts:60-119 | Running the pass on its own output returns the same items, counters and log. |
| PatchProperties.StimScenario | src/mod.ts:74-86 | With blacklist off and `stim_uses` 4, a stimulator gets 4 uses, the stim count is 1 and the other counts are 0. |
| PatchProperties.BlacklistScenario | src/mod.ts:67-71 | With the blacklist on and naming the same stimulator, it comes out unchanged and every counter is 0. |
| PatchProperties.MissingMedkitEntryScenario | src/mod.ts:94-98 | A medkit whose name has no `medkit_hp` entry comes out with its hit-point pool undefined. |

## Left out

- Host plumbing is not modelled: the dependency-container lookups of the file
  system, database and logger, and the `preSptLoad` instance setup. They hold no
  logic.
- Reading and parsing the JSONC configuration file is left out (file I/O and a
  third-party parser). The configuration is an already-parsed, well-typed
  record.
- Log message text and colours are left out, as is the "Loaded successfully"
  line. Debug output is modelled only as structured change records (rule, name,
  value). The summary is modelled only as its two numbers.
- The mod label from `package.json` is left out.
- The concrete `BaseClasses` id strings are left out. Their library is not
  part of this model, so the four classes are distinct abstract constants.
- JavaScript object lookups also see inherited properties, so a display name
  such as `constructor` would read a prototype member. The model treats each
  table as a plain map.
- Configuration values are integers. JSON numbers with a fraction, and
  wrongly typed fields, are not modelled.
- The locale input is the English table itself. A missing `en` table, which
  would throw, is not modelled.
- Writing `undefined` into a property and leaving the property absent are both
  `None`. JSON output does not tell them apart.
- Item properties other than `MaxHpResource` are an abstract map. The pass
  never reads or writes them.
- In-place mutation of the host's item table is modelled as returning a new
  list.
