/**
  The item-patching pass: one scan over the item templates that, item by
  item, applies a blacklist check and then three independent rules, each of
  which overwrites the same `MaxHpResource` field. The pass returns the
  patched items, the three counters it reports and, when debug logging is
  on, one change record per rewrite.
 */
module Patcher {
  import opened ItemData

  /** The three rewriting rules, in the order the pass applies them. */
  datatype Rule = StimRule | MedkitRule | MedicalRule

  /** One rewrite, as the debug log reports it: the rule, the item's display
      name and the value written. */
  datatype Change = Change(rule: Rule, itemName: string, value: Option<int>)

  /** The id appears in any of the three blacklists. */
  predicate Blacklisted(cfg: Config, id: ItemId)
  {
    || id in cfg.blacklistedStims
    || id in cfg.blacklistedMedkits
    || id in cfg.blacklistedMedical
  }

  /** The item is passed over entirely: the blacklist is enabled and names it. */
  predicate Skipped(cfg: Config, item: Item)
  {
    cfg.enableBlacklist && Blacklisted(cfg, item.id)
  }

  /** The configuration flag that switches a rule on. */
  predicate Enabled(cfg: Config, rule: Rule)
  {
    match rule
    case StimRule => cfg.modifyStims
    case MedkitRule => cfg.modifyMedical
    case MedicalRule => cfg.modifyMedical
  }

  /** The category test of a rule. In the medical-uses test the conjunction
      binds tighter than the disjunction: every item under the medical class
      matches, and items under drugs match unless they are the morphine
      injector. */
  predicate Targets(rule: Rule, item: Item)
  {
    match rule
    case StimRule => item.parent == Stimulator || item.id == MorphineId
    case MedkitRule => item.parent == Medkit
    case MedicalRule => item.parent == Medical || (item.parent == Drugs && item.id != MorphineId)
  }

  /** The rule rewrites the item during the pass. */
  predicate Fires(cfg: Config, rule: Rule, item: Item)
  {
    !Skipped(cfg, item) && Enabled(cfg, rule) && Targets(rule, item)
  }

  /** The value a rule writes for an item with the given display name. */
  function RuleValue(cfg: Config, rule: Rule, name: string): Option<int>
  {
    match rule
    case StimRule => Some(cfg.stimUses)
    case MedkitRule => Lookup(cfg.medkitHp, name)
    case MedicalRule => Lookup(cfg.medicalUses, name)
  }

  /** The state of one item as it goes through the rules: the item as
      rewritten so far, the rules that fired, and the records logged. */
  datatype ItemOutcome = ItemOutcome(item: Item, fired: set<Rule>, log: seq<Change>)

  function Untouched(item: Item): ItemOutcome
  {
    ItemOutcome(item, {}, [])
  }

  /** One of the three `if` blocks of the loop body. */
  function ApplyRule(cfg: Config, rule: Rule, name: string, o: ItemOutcome): ItemOutcome
  {
    if Enabled(cfg, rule) && Targets(rule, o.item) then
      var v := RuleValue(cfg, rule, name);
      ItemOutcome(
        o.item.(props := o.item.props.(maxHpResource := v)),
        o.fired + {rule},
        o.log + (if cfg.debugLogChangedItems then [Change(rule, name, v)] else []))
    else
      o
  }

  /** The change records of the fired rules, in rule order. */
  function ChangesFor(cfg: Config, fired: set<Rule>, name: string): seq<Change>
  {
    (if StimRule in fired then [Change(StimRule, name, RuleValue(cfg, StimRule, name))] else [])
    + (if MedkitRule in fired then [Change(MedkitRule, name, RuleValue(cfg, MedkitRule, name))] else [])
    + (if MedicalRule in fired then [Change(MedicalRule, name, RuleValue(cfg, MedicalRule, name))] else [])
  }

  /** 1 when the rule fired on the item, else 0. */
  function Counted(o: ItemOutcome, rule: Rule): nat
  {
    if rule in o.fired then 1 else 0
  }

  /** The loop body for one item. The rules run in sequence and each
      overwrites the field, so the value of the last rule that fires is the
      one that stays. */
  function PatchItem(cfg: Config, item: Item, locale: Locale): (o: ItemOutcome)
    // exactly the rules whose flag, category test and blacklist allow it fire
    ensures StimRule in o.fired <==> Fires(cfg, StimRule, item)
    ensures MedkitRule in o.fired <==> Fires(cfg, MedkitRule, item)
    ensures MedicalRule in o.fired <==> Fires(cfg, MedicalRule, item)
    // the id, the parent and every other property are kept
    ensures o.item == item.(props := item.props.(maxHpResource := o.item.props.maxHpResource))
    // last matching rule wins
    ensures o.item.props.maxHpResource ==
      if MedicalRule in o.fired then Lookup(cfg.medicalUses, LocalName(locale, item.id))
      else if MedkitRule in o.fired then Lookup(cfg.medkitHp, LocalName(locale, item.id))
      else if StimRule in o.fired then Some(cfg.stimUses)
      else item.props.maxHpResource
    ensures o.log == if cfg.debugLogChangedItems then ChangesFor(cfg, o.fired, LocalName(locale, item.id)) else []
  {
    if Skipped(cfg, item) then
      Untouched(item)
    else
      var name := LocalName(locale, item.id);
      ApplyRule(cfg, MedicalRule, name,
        ApplyRule(cfg, MedkitRule, name,
          ApplyRule(cfg, StimRule, name, Untouched(item))))
  }

  /** The number of items of a list on which a rule fires, counted from the front. */
  function CountFiring(cfg: Config, rule: Rule, items: seq<Item>): nat
  {
    if |items| == 0 then 0
    else (if Fires(cfg, rule, items[0]) then 1 else 0) + CountFiring(cfg, rule, items[1..])
  }

  /** Counting from the back gives the same number. */
  lemma {:induction false} CountFiringSnoc(cfg: Config, rule: Rule, items: seq<Item>)
    requires |items| > 0
    ensures CountFiring(cfg, rule, items) ==
      CountFiring(cfg, rule, items[..|items| - 1]) + (if Fires(cfg, rule, items[|items| - 1]) then 1 else 0)
    decreases |items|
  {
    if |items| > 1 {
      CountFiringSnoc(cfg, rule, items[1..]);
      assert items[1..][..|items[1..]| - 1] == items[..|items| - 1][1..];
    }
  }

  /** What the pass hands back: the patched items, the three counters and
      the debug change records. */
  datatype PatchResult = PatchResult(
    items: seq<Item>,
    stimsChanged: nat,
    medkitsChanged: nat,
    medicalChanged: nat,
    log: seq<Change>)

  const NoResult := PatchResult([], 0, 0, 0, [])

  /** One more iteration of the loop: append the item and bump the counters
      of the rules that fired. */
  function Extend(r: PatchResult, o: ItemOutcome): PatchResult
  {
    PatchResult(
      r.items + [o.item],
      r.stimsChanged + Counted(o, StimRule),
      r.medkitsChanged + Counted(o, MedkitRule),
      r.medicalChanged + Counted(o, MedicalRule),
      r.log + o.log)
  }

  /** The whole pass over the item list. */
  function Patch(cfg: Config, items: seq<Item>, locale: Locale): (r: PatchResult)
    ensures |r.items| == |items|
    // each item is patched on its own
    ensures forall i :: 0 <= i < |items| ==> r.items[i] == PatchItem(cfg, items[i], locale).item
    // each counter is the number of items its rule fired on
    ensures r.stimsChanged == CountFiring(cfg, StimRule, items)
    ensures r.medkitsChanged == CountFiring(cfg, MedkitRule, items)
    ensures r.medicalChanged == CountFiring(cfg, MedicalRule, items)
    // one record per rewrite when debug logging is on, none otherwise
    ensures cfg.debugLogChangedItems ==> |r.log| == r.stimsChanged + r.medkitsChanged + r.medicalChanged
    ensures !cfg.debugLogChangedItems ==> r.log == []
    decreases |items|
  {
    if |items| == 0 then
      NoResult
    else
      var prev := Patch(cfg, items[..|items| - 1], locale);
      var o := PatchItem(cfg, items[|items| - 1], locale);
      CountFiringSnoc(cfg, StimRule, items);
      CountFiringSnoc(cfg, MedkitRule, items);
      CountFiringSnoc(cfg, MedicalRule, items);
      ExtendPatchesLast(cfg, items, locale, prev, o);
      OutcomeLogLength(cfg, items[|items| - 1], locale);
      Extend(prev, o)
  }

  /** Appending the patched last item to the patched prefix patches every item. */
  lemma ExtendPatchesLast(cfg: Config, items: seq<Item>, locale: Locale, prev: PatchResult, o: ItemOutcome)
    requires |items| > 0 && |prev.items| == |items| - 1
    requires forall i :: 0 <= i < |items| - 1 ==> prev.items[i] == PatchItem(cfg, items[i], locale).item
    requires o == PatchItem(cfg, items[|items| - 1], locale)
    ensures |Extend(prev, o).items| == |items|
    ensures forall i :: 0 <= i < |items| ==> Extend(prev, o).items[i] == PatchItem(cfg, items[i], locale).item
  {
  }

  /** One change record per fired rule when debug logging is on. */
  lemma OutcomeLogLength(cfg: Config, item: Item, locale: Locale)
    ensures var o := PatchItem(cfg, item, locale);
            cfg.debugLogChangedItems ==> |o.log| == Counted(o, StimRule) + Counted(o, MedkitRule) + Counted(o, MedicalRule)
  {
  }

  /** The two numbers of the summary line: stims changed, and medical items
      changed (medkit rewrites plus medical-uses rewrites). */
  datatype Summary = Summary(stims: nat, medicalItems: nat)

  function Summarize(r: PatchResult): Summary
  {
    Summary(r.stimsChanged, r.medkitsChanged + r.medicalChanged)
  }
}
