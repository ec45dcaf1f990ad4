/**
  The scan written the way the plugin writes it: one loop with three
  running counters and a `continue` for blacklisted items, whose body runs
  the three rule blocks, each overwriting the same field. It is proved to
  compute exactly the functional pass.
 */
module PassLoop {
  import opened ItemData
  import opened Patcher
  import PatchProperties

  /** The loop over all items, with the counters kept in mutable variables. */
  method RunPass(cfg: Config, items: seq<Item>, locale: Locale)
    returns (patched: seq<Item>, stimsChanged: nat, medkitsChanged: nat, medicalChanged: nat, log: seq<Change>)
    ensures PatchResult(patched, stimsChanged, medkitsChanged, medicalChanged, log) == Patch(cfg, items, locale)
    ensures |patched| == |items|
    ensures stimsChanged == CountFiring(cfg, StimRule, items)
    ensures medkitsChanged + medicalChanged == PatchProperties.CountMedicalItems(cfg, items)
  {
    patched, stimsChanged, medkitsChanged, medicalChanged, log := [], 0, 0, 0, [];
    var i := 0;
    while i < |items|
      invariant i <= |items|
      invariant PatchResult(patched, stimsChanged, medkitsChanged, medicalChanged, log) == Patch(cfg, items[..i], locale)
    {
      var item := items[i];
      ghost var before := PatchResult(patched, stimsChanged, medkitsChanged, medicalChanged, log);

      if cfg.enableBlacklist {
        if Blacklisted(cfg, item.id) {
          patched := patched + [item];
          assert PatchResult(patched, stimsChanged, medkitsChanged, medicalChanged, log) == Patch(cfg, items[..i + 1], locale) by {
            PatchStep(cfg, items, i, locale);
            assert PatchItem(cfg, item, locale) == Untouched(item);
            PatchProperties.ExtendUntouched(before, item);
          }
          i := i + 1;
          continue;
        }
      }

      var hp, entries, stims, medkits, medical := RuleBlocks(cfg, item, locale);
      patched := patched + [item.(props := item.props.(maxHpResource := hp))];
      stimsChanged, medkitsChanged, medicalChanged := stimsChanged + stims, medkitsChanged + medkits, medicalChanged + medical;
      log := log + entries;
      assert PatchResult(patched, stimsChanged, medkitsChanged, medicalChanged, log) == Patch(cfg, items[..i + 1], locale) by {
        PatchStep(cfg, items, i, locale);
        ExtendFields(before, PatchItem(cfg, item, locale), patched, stimsChanged, medkitsChanged, medicalChanged, log);
      }
      i := i + 1;
    }
    assert items[..|items|] == items;
    PatchProperties.SummaryCountsChangedItems(cfg, items, locale);
  }

  /** The three rule blocks of the loop body for an item that passed the
      blacklist check: the field value they leave, the records they log and
      the amount each adds to its counter. */
  method RuleBlocks(cfg: Config, item: Item, locale: Locale)
    returns (hp: Option<int>, entries: seq<Change>, stims: nat, medkits: nat, medical: nat)
    requires !Skipped(cfg, item)
    ensures var o := PatchItem(cfg, item, locale);
            && item.(props := item.props.(maxHpResource := hp)) == o.item
            && entries == o.log
            && stims == Counted(o, StimRule)
            && medkits == Counted(o, MedkitRule)
            && medical == Counted(o, MedicalRule)
  {
    var name := LocalName(locale, item.id);
    hp, entries, stims, medkits, medical := item.props.maxHpResource, [], 0, 0, 0;
    ghost var fired: set<Rule> := {};

    if cfg.modifyStims {
      if item.parent == Stimulator || item.id == MorphineId {
        hp := Some(cfg.stimUses);
        if cfg.debugLogChangedItems {
          entries := entries + [Change(StimRule, name, hp)];
        }
        stims := stims + 1;
        fired := fired + {StimRule};
      }
    }

    if cfg.modifyMedical {
      if item.parent == Medkit {
        hp := Lookup(cfg.medkitHp, name);
        if cfg.debugLogChangedItems {
          entries := entries + [Change(MedkitRule, name, hp)];
        }
        medkits := medkits + 1;
        fired := fired + {MedkitRule};
      }

      if item.parent == Medical || (item.parent == Drugs && item.id != MorphineId) {
        hp := Lookup(cfg.medicalUses, name);
        if cfg.debugLogChangedItems {
          entries := entries + [Change(MedicalRule, name, hp)];
        }
        medical := medical + 1;
        fired := fired + {MedicalRule};
      }
    }

    ghost var o := PatchItem(cfg, item, locale);
    SameRules(fired, o.fired);
    if cfg.debugLogChangedItems {
      LogInRuleOrder(cfg, fired, name, entries);
    }
  }

  /** The records appended block by block are the change records of the
      fired rules in rule order. */
  lemma LogInRuleOrder(cfg: Config, fired: set<Rule>, name: string, entries: seq<Change>)
    requires entries ==
      (if StimRule in fired then [Change(StimRule, name, Some(cfg.stimUses))] else [])
      + (if MedkitRule in fired then [Change(MedkitRule, name, Lookup(cfg.medkitHp, name))] else [])
      + (if MedicalRule in fired then [Change(MedicalRule, name, Lookup(cfg.medicalUses, name))] else [])
    ensures entries == ChangesFor(cfg, fired, name)
  {
  }

  /** Two sets of rules that agree on each of the three rules are equal. */
  lemma SameRules(a: set<Rule>, b: set<Rule>)
    requires StimRule in a <==> StimRule in b
    requires MedkitRule in a <==> MedkitRule in b
    requires MedicalRule in a <==> MedicalRule in b
    ensures a == b
  {
    forall r | r in a ensures r in b {
      match r
      case StimRule =>
      case MedkitRule =>
      case MedicalRule =>
    }
    forall r | r in b ensures r in a {
      match r
      case StimRule =>
      case MedkitRule =>
      case MedicalRule =>
    }
  }

  /** A result built field by field from `r` and `o` is `Extend(r, o)`. */
  lemma ExtendFields(r: PatchResult, o: ItemOutcome, items: seq<Item>, stims: nat, medkits: nat, medical: nat, log: seq<Change>)
    requires items == r.items + [o.item] && log == r.log + o.log
    requires stims == r.stimsChanged + Counted(o, StimRule)
    requires medkits == r.medkitsChanged + Counted(o, MedkitRule)
    requires medical == r.medicalChanged + Counted(o, MedicalRule)
    ensures PatchResult(items, stims, medkits, medical, log) == Extend(r, o)
  {
  }

  /** The pass over one more item of the list. */
  lemma PatchStep(cfg: Config, items: seq<Item>, i: nat, locale: Locale)
    requires i < |items|
    ensures Patch(cfg, items[..i + 1], locale) == Extend(Patch(cfg, items[..i], locale), PatchItem(cfg, items[i], locale))
  {
    assert items[..i + 1][..i] == items[..i];
    PatchProperties.PatchUnfold(cfg, items[..i + 1], locale);
  }
}
