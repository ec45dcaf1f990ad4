/**
  Properties of the item-patching pass as a whole: what the blacklist does
  and does not do, which value each rule leaves behind, what stays
  untouched, what the counters and the summary line mean, and how the pass
  composes over lists.
 */
module PatchProperties {
  import opened ItemData
  import opened Patcher

  /** Two pass results side by side, as if the loop had run over the
      concatenation of their inputs. */
  function Join(x: PatchResult, y: PatchResult): PatchResult
  {
    PatchResult(
      x.items + y.items,
      x.stimsChanged + y.stimsChanged,
      x.medkitsChanged + y.medkitsChanged,
      x.medicalChanged + y.medicalChanged,
      x.log + y.log)
  }

  /** The pass over a concatenation is the two passes joined: no item's
      outcome depends on another item. */
  lemma {:induction false} PatchConcat(cfg: Config, a: seq<Item>, b: seq<Item>, locale: Locale)
    ensures Patch(cfg, a + b, locale) == Join(Patch(cfg, a, locale), Patch(cfg, b, locale))
    decreases |b|
  {
    if |b| == 0 {
      assert a + b == a;
      assert Patch(cfg, b, locale) == NoResult;
      JoinNoResult(Patch(cfg, a, locale));
    } else {
      var b' := b[..|b| - 1];
      var o := PatchItem(cfg, b[|b| - 1], locale);
      calc {
        Patch(cfg, a + b, locale);
      == { PatchUnfoldConcat(cfg, a, b, locale); }
        Extend(Patch(cfg, a + b', locale), o);
      == { PatchConcat(cfg, a, b', locale); }
        Extend(Join(Patch(cfg, a, locale), Patch(cfg, b', locale)), o);
      == { JoinExtend(Patch(cfg, a, locale), Patch(cfg, b', locale), o); }
        Join(Patch(cfg, a, locale), Extend(Patch(cfg, b', locale), o));
      == { PatchUnfold(cfg, b, locale); }
        Join(Patch(cfg, a, locale), Patch(cfg, b, locale));
      }
    }
  }

  /** One step of the pass: the last item is patched after all the others. */
  lemma PatchUnfold(cfg: Config, items: seq<Item>, locale: Locale)
    requires |items| > 0
    ensures Patch(cfg, items, locale)
         == Extend(Patch(cfg, items[..|items| - 1], locale), PatchItem(cfg, items[|items| - 1], locale))
  {
  }

  /** The step of `PatchUnfold`, for a list that ends in a non-empty `b`. */
  lemma PatchUnfoldConcat(cfg: Config, a: seq<Item>, b: seq<Item>, locale: Locale)
    requires |b| > 0
    ensures Patch(cfg, a + b, locale)
         == Extend(Patch(cfg, a + b[..|b| - 1], locale), PatchItem(cfg, b[|b| - 1], locale))
  {
    assert (a + b)[..|a + b| - 1] == a + b[..|b| - 1];
    assert (a + b)[|a + b| - 1] == b[|b| - 1];
    PatchUnfold(cfg, a + b, locale);
  }

  /** Joining with the empty result changes nothing. */
  lemma JoinNoResult(x: PatchResult)
    ensures Join(x, NoResult) == x
  {
    assert x.items + [] == x.items;
    assert x.log + [] == x.log;
  }

  /** The result of a pass over one item. */
  lemma ExtendNoResult(o: ItemOutcome)
    ensures Extend(NoResult, o)
         == PatchResult([o.item], Counted(o, StimRule), Counted(o, MedkitRule), Counted(o, MedicalRule), o.log)
  {
    assert NoResult.items + [o.item] == [o.item];
    assert NoResult.log + o.log == o.log;
  }

  /** Appending one item commutes with joining on the left. */
  lemma JoinExtend(x: PatchResult, y: PatchResult, o: ItemOutcome)
    ensures Join(x, Extend(y, o)) == Extend(Join(x, y), o)
  {
    assert x.items + (y.items + [o.item]) == (x.items + y.items) + [o.item];
    assert x.log + (y.log + o.log) == (x.log + y.log) + o.log;
  }

  /** A blacklisted item, with the blacklist enabled, comes out unchanged and
      adds nothing to any counter or to the log: the pass over a list with
      the item inserted equals the pass without it, plus the item as it was. */
  lemma SkippedItemChangesNothing(cfg: Config, a: seq<Item>, x: Item, b: seq<Item>, locale: Locale)
    requires cfg.enableBlacklist && Blacklisted(cfg, x.id)
    ensures var with := Patch(cfg, a + [x] + b, locale);
            var without := Patch(cfg, a + b, locale);
            && with.items == without.items[..|a|] + [x] + without.items[|a|..]
            && with.stimsChanged == without.stimsChanged
            && with.medkitsChanged == without.medkitsChanged
            && with.medicalChanged == without.medicalChanged
            && with.log == without.log
  {
    var pa, pb := Patch(cfg, a, locale), Patch(cfg, b, locale);
    assert Patch(cfg, a + [x] + b, locale) == Join(Join(pa, PatchResult([x], 0, 0, 0, [])), pb) by {
      SkippedSingleton(cfg, x, locale);
      PatchConcat(cfg, a, [x], locale);
      PatchConcat(cfg, a + [x], b, locale);
    }
    assert Patch(cfg, a + b, locale) == Join(pa, pb) by {
      PatchConcat(cfg, a, b, locale);
    }
    JoinInserted(pa, x, pb);
  }

  /** Inserting an untouched item between two results only inserts it into the items. */
  lemma JoinInserted(x: PatchResult, item: Item, y: PatchResult)
    ensures var with := Join(Join(x, PatchResult([item], 0, 0, 0, [])), y);
            var without := Join(x, y);
            && with.items == without.items[..|x.items|] + [item] + without.items[|x.items|..]
            && with.stimsChanged == without.stimsChanged
            && with.medkitsChanged == without.medkitsChanged
            && with.medicalChanged == without.medicalChanged
            && with.log == without.log
  {
    assert (x.items + y.items)[..|x.items|] == x.items;
    assert (x.items + y.items)[|x.items|..] == y.items;
    assert x.log + [] == x.log;
  }

  /** The pass over a single skipped item. */
  lemma SkippedSingleton(cfg: Config, x: Item, locale: Locale)
    requires Skipped(cfg, x)
    ensures Patch(cfg, [x], locale) == PatchResult([x], 0, 0, 0, [])
  {
    assert [x][..0] == [];
    PatchUnfold(cfg, [x], locale);
    assert Patch(cfg, [], locale) == NoResult;
  }

  /** With the blacklist enabled, a listed item's entry in the output is the
      input entry. */
  lemma BlacklistedItemUnchanged(cfg: Config, items: seq<Item>, locale: Locale, i: nat)
    requires i < |items|
    requires cfg.enableBlacklist && Blacklisted(cfg, items[i].id)
    ensures Patch(cfg, items, locale).items[i] == items[i]
    ensures forall rule :: !Fires(cfg, rule, items[i])
  {
  }

  /** With the blacklist disabled, the three lists have no effect at all,
      whatever ids they hold. */
  lemma {:induction false} DisabledBlacklistIgnored(
    cfg: Config, stims: seq<ItemId>, medkits: seq<ItemId>, medical: seq<ItemId>,
    items: seq<Item>, locale: Locale)
    requires !cfg.enableBlacklist
    ensures Patch(cfg.(blacklistedStims := stims, blacklistedMedkits := medkits, blacklistedMedical := medical), items, locale)
         == Patch(cfg, items, locale)
    decreases |items|
  {
    var cfg' := cfg.(blacklistedStims := stims, blacklistedMedkits := medkits, blacklistedMedical := medical);
    if |items| == 0 {
      assert Patch(cfg', items, locale) == NoResult == Patch(cfg, items, locale);
    } else {
      DisabledBlacklistIgnored(cfg, stims, medkits, medical, items[..|items| - 1], locale);
      PatchUnfold(cfg, items, locale);
      PatchUnfold(cfg', items, locale);
      PatchItemBlacklistOff(cfg, cfg', items[|items| - 1], locale);
    }
  }

  /** With the blacklist off, two configurations that differ only in their
      lists patch every item alike. */
  lemma PatchItemBlacklistOff(cfg: Config, cfg': Config, x: Item, locale: Locale)
    requires !cfg.enableBlacklist
    requires cfg' == cfg.(blacklistedStims := cfg'.blacklistedStims,
                          blacklistedMedkits := cfg'.blacklistedMedkits,
                          blacklistedMedical := cfg'.blacklistedMedical)
    ensures PatchItem(cfg', x, locale) == PatchItem(cfg, x, locale)
  {
    assert !Skipped(cfg', x) && !Skipped(cfg, x);
  }

  /** Which rule's value an item ends up with, case by case: the medical
      rules cannot both fire, so each of them decides the value when it
      fires, and the stim rule decides it when it fires alone. */
  lemma RuleValueWins(cfg: Config, item: Item, locale: Locale)
    ensures var hp := PatchItem(cfg, item, locale).item.props.maxHpResource;
            var name := LocalName(locale, item.id);
            && (Fires(cfg, MedicalRule, item) ==> hp == Lookup(cfg.medicalUses, name))
            && (Fires(cfg, MedkitRule, item) ==> hp == Lookup(cfg.medkitHp, name))
            && (Fires(cfg, StimRule, item) && !Fires(cfg, MedkitRule, item) && !Fires(cfg, MedicalRule, item)
                ==> hp == Some(cfg.stimUses))
  {
    MedicalRulesExclusive(cfg, item);
  }

  /** An item the stim rule fires on keeps `stim_uses` unless a rule after
      it also fires, which needs the medical flag and a medkit or medical
      parent (possible only for the morphine id). */
  lemma StimRuleSetsStimUses(cfg: Config, items: seq<Item>, locale: Locale, i: nat)
    requires i < |items|
    requires Fires(cfg, StimRule, items[i])
    requires !(cfg.modifyMedical && (items[i].parent == Medkit || items[i].parent == Medical))
    ensures Patch(cfg, items, locale).items[i].props.maxHpResource == Some(cfg.stimUses)
  {
    assert Patch(cfg, items, locale).items[i] == PatchItem(cfg, items[i], locale).item;
    RuleValueWins(cfg, items[i], locale);
  }

  /** The morphine injector under the drugs class is never taken by the
      medical-uses rule, so it keeps `stim_uses` when the stim flag is on and
      it is not skipped, and is left as it was otherwise. */
  lemma MorphineUnderDrugsKeepsStimUses(cfg: Config, items: seq<Item>, locale: Locale, i: nat)
    requires i < |items|
    requires items[i].id == MorphineId && items[i].parent == Drugs
    ensures !Fires(cfg, MedicalRule, items[i]) && !Fires(cfg, MedkitRule, items[i])
    ensures !Skipped(cfg, items[i]) && cfg.modifyStims ==>
      Patch(cfg, items, locale).items[i].props.maxHpResource == Some(cfg.stimUses)
    ensures !(!Skipped(cfg, items[i]) && cfg.modifyStims) ==> Patch(cfg, items, locale).items[i] == items[i]
  {
    assert Patch(cfg, items, locale).items[i] == PatchItem(cfg, items[i], locale).item;
    RuleValueWins(cfg, items[i], locale);
  }

  /** The exclusion covers only the drugs branch: the morphine id under the
      medical class matches the medical-uses rule, which runs after the stim
      rule and so decides the value. */
  lemma MorphineUnderMedicalTakesMedicalUses(cfg: Config, items: seq<Item>, locale: Locale, i: nat)
    requires i < |items|
    requires items[i].id == MorphineId && items[i].parent == Medical
    requires !Skipped(cfg, items[i]) && cfg.modifyMedical
    ensures Fires(cfg, MedicalRule, items[i])
    ensures Fires(cfg, StimRule, items[i]) <==> cfg.modifyStims
    ensures Patch(cfg, items, locale).items[i].props.maxHpResource
         == Lookup(cfg.medicalUses, LocalName(locale, items[i].id))
  {
    assert Patch(cfg, items, locale).items[i] == PatchItem(cfg, items[i], locale).item;
    RuleValueWins(cfg, items[i], locale);
  }

  /** A medkit that is not skipped, with the medical flag on, gets its
      `medkit_hp` entry; a name missing from the table leaves the field
      undefined instead of raising an error. */
  lemma MedkitRuleSetsMedkitHp(cfg: Config, items: seq<Item>, locale: Locale, i: nat)
    requires i < |items|
    requires !Skipped(cfg, items[i]) && cfg.modifyMedical && items[i].parent == Medkit
    ensures var name := LocalName(locale, items[i].id);
            var hp := Patch(cfg, items, locale).items[i].props.maxHpResource;
            && (name in cfg.medkitHp ==> hp == Some(cfg.medkitHp[name]))
            && (name !in cfg.medkitHp ==> hp == None)
  {
    assert Patch(cfg, items, locale).items[i] == PatchItem(cfg, items[i], locale).item;
    RuleValueWins(cfg, items[i], locale);
  }

  /** An item under the medical class, or under drugs other than the
      morphine injector, that is not skipped, with the medical flag on, gets
      its `medical_uses` entry, or an undefined field when its name is
      missing from the table. */
  lemma MedicalRuleSetsMedicalUses(cfg: Config, items: seq<Item>, locale: Locale, i: nat)
    requires i < |items|
    requires !Skipped(cfg, items[i]) && cfg.modifyMedical
    requires items[i].parent == Medical || (items[i].parent == Drugs && items[i].id != MorphineId)
    ensures var name := LocalName(locale, items[i].id);
            var hp := Patch(cfg, items, locale).items[i].props.maxHpResource;
            && (name in cfg.medicalUses ==> hp == Some(cfg.medicalUses[name]))
            && (name !in cfg.medicalUses ==> hp == None)
  {
    assert Patch(cfg, items, locale).items[i] == PatchItem(cfg, items[i], locale).item;
    RuleValueWins(cfg, items[i], locale);
  }

  /** An item with no English name is looked up under the text "undefined":
      a table entry with that key is what a nameless medkit or medical item
      receives. */
  lemma NamelessItemUsesUndefinedKey(cfg: Config, items: seq<Item>, locale: Locale, i: nat)
    requires i < |items|
    requires NameKey(items[i].id) !in locale
    ensures Fires(cfg, MedkitRule, items[i]) ==>
      Patch(cfg, items, locale).items[i].props.maxHpResource == Lookup(cfg.medkitHp, UndefinedText)
    ensures Fires(cfg, MedicalRule, items[i]) ==>
      Patch(cfg, items, locale).items[i].props.maxHpResource == Lookup(cfg.medicalUses, UndefinedText)
  {
    assert Patch(cfg, items, locale).items[i] == PatchItem(cfg, items[i], locale).item;
    assert LocalName(locale, items[i].id) == UndefinedText;
    RuleValueWins(cfg, items[i], locale);
  }

  /** The pass writes only `MaxHpResource`: ids, parents and all other
      properties come out as they went in. */
  lemma OnlyMaxHpResourceWritten(cfg: Config, items: seq<Item>, locale: Locale)
    ensures var out := Patch(cfg, items, locale).items;
            forall i :: 0 <= i < |items| ==>
              && out[i].id == items[i].id
              && out[i].parent == items[i].parent
              && out[i].props.others == items[i].props.others
  {
  }

  /** An item no enabled rule matches comes out unchanged. */
  lemma UnmatchedItemUnchanged(cfg: Config, items: seq<Item>, locale: Locale, i: nat)
    requires i < |items|
    requires forall rule :: !Fires(cfg, rule, items[i])
    ensures Patch(cfg, items, locale).items[i] == items[i]
  {
    assert Patch(cfg, items, locale).items[i] == PatchItem(cfg, items[i], locale).item;
  }

  /** With both rule flags off the pass is the identity: same items, all
      counters zero, nothing logged. */
  lemma {:induction false} NoRuleEnabledIsIdentity(cfg: Config, items: seq<Item>, locale: Locale)
    requires !cfg.modifyStims && !cfg.modifyMedical
    ensures Patch(cfg, items, locale) == PatchResult(items, 0, 0, 0, [])
    decreases |items|
  {
    if |items| == 0 {
      assert Patch(cfg, items, locale) == NoResult;
    } else {
      var x := items[|items| - 1];
      NoRuleEnabledIsIdentity(cfg, items[..|items| - 1], locale);
      PatchUnfold(cfg, items, locale);
      NothingFiresNothingChanges(cfg, x, locale);
      ExtendUntouched(PatchResult(items[..|items| - 1], 0, 0, 0, []), x);
      assert items[..|items| - 1] + [x] == items;
    }
  }

  /** An item no rule fires on leaves the loop body untouched. */
  lemma NothingFiresNothingChanges(cfg: Config, x: Item, locale: Locale)
    requires !Fires(cfg, StimRule, x) && !Fires(cfg, MedkitRule, x) && !Fires(cfg, MedicalRule, x)
    ensures PatchItem(cfg, x, locale) == Untouched(x)
  {
    assert PatchItem(cfg, x, locale).fired == {};
  }

  /** Appending an item no rule touched only appends it. */
  lemma ExtendUntouched(r: PatchResult, x: Item)
    ensures Extend(r, Untouched(x))
         == PatchResult(r.items + [x], r.stimsChanged, r.medkitsChanged, r.medicalChanged, r.log)
  {
    assert r.log + [] == r.log;
  }

  /** The medkit and medical-uses rules never both fire on one item. */
  lemma MedicalRulesExclusive(cfg: Config, item: Item)
    ensures !(Fires(cfg, MedkitRule, item) && Fires(cfg, MedicalRule, item))
  {
  }

  /** Rules overlap only on the morphine id: on any other item at most one
      rule fires, so the last-wins order never matters for it. */
  lemma RulesOverlapOnlyOnMorphine(cfg: Config, item: Item)
    requires item.id != MorphineId
    ensures forall r1, r2 :: Fires(cfg, r1, item) && Fires(cfg, r2, item) ==> r1 == r2
  {
  }

  /** The number of items on which either medical rule fires. */
  function CountMedicalItems(cfg: Config, items: seq<Item>): nat
  {
    if |items| == 0 then 0
    else
      (if Fires(cfg, MedkitRule, items[0]) || Fires(cfg, MedicalRule, items[0]) then 1 else 0)
      + CountMedicalItems(cfg, items[1..])
  }

  /** The two medical counters together count each medical item once. */
  lemma {:induction false} MedicalCountsAdd(cfg: Config, items: seq<Item>)
    ensures CountFiring(cfg, MedkitRule, items) + CountFiring(cfg, MedicalRule, items)
         == CountMedicalItems(cfg, items)
    decreases |items|
  {
    if |items| > 0 {
      MedicalRulesExclusive(cfg, items[0]);
      MedicalCountsAdd(cfg, items[1..]);
    }
  }

  /** The summary line reports the stims the stim rule changed and, as its
      medical total, the number of distinct items either medical rule
      changed. */
  lemma SummaryCountsChangedItems(cfg: Config, items: seq<Item>, locale: Locale)
    ensures Summarize(Patch(cfg, items, locale))
         == Summary(CountFiring(cfg, StimRule, items), CountMedicalItems(cfg, items))
  {
    MedicalCountsAdd(cfg, items);
  }

  /** Patching an already patched item changes nothing more. */
  lemma PatchItemIdempotent(cfg: Config, item: Item, locale: Locale)
    ensures PatchItem(cfg, PatchItem(cfg, item, locale).item, locale) == PatchItem(cfg, item, locale)
  {
    var o := PatchItem(cfg, item, locale);
    var o2 := PatchItem(cfg, o.item, locale);
    assert o2.fired == o.fired;
  }

  /** Running the pass a second time over its own output yields the same
      items, counters and log. */
  lemma {:induction false} PatchIdempotent(cfg: Config, items: seq<Item>, locale: Locale)
    ensures Patch(cfg, Patch(cfg, items, locale).items, locale) == Patch(cfg, items, locale)
    decreases |items|
  {
    if |items| == 0 {
      assert Patch(cfg, items, locale) == NoResult;
      assert Patch(cfg, NoResult.items, locale) == NoResult;
    } else {
      var prefix, x := items[..|items| - 1], items[|items| - 1];
      var prev, o := Patch(cfg, prefix, locale), PatchItem(cfg, x, locale);
      var out := Patch(cfg, items, locale).items;
      PatchUnfold(cfg, items, locale);
      assert out == prev.items + [o.item];
      assert out[..|out| - 1] == prev.items;
      PatchUnfold(cfg, out, locale);
      PatchIdempotent(cfg, prefix, locale);
      PatchItemIdempotent(cfg, x, locale);
    }
  }

  /** A configuration that only sets stims to four uses, with a blacklist
      naming "X" that is switched off. */
  const FourUseStims := Config(false, ["X"], [], [], true, 4, false, map[], map[], false)

  const SampleStim := Item("X", Stimulator, Props(Some(1), map[]))

  /** A stimulator comes out with four uses and is counted once. */
  lemma StimScenario(locale: Locale)
    ensures Patch(FourUseStims, [SampleStim], locale)
         == PatchResult([SampleStim.(props := Props(Some(4), map[]))], 1, 0, 0, [])
  {
    var o := PatchItem(FourUseStims, SampleStim, locale);
    assert "X" != MorphineId;
    assert o.fired == {StimRule} by {
      assert !Fires(FourUseStims, MedkitRule, SampleStim) && !Fires(FourUseStims, MedicalRule, SampleStim);
    }
    assert o.item == SampleStim.(props := Props(Some(4), map[]));
    assert [SampleStim][..0] == [];
    PatchUnfold(FourUseStims, [SampleStim], locale);
    assert Patch(FourUseStims, [], locale) == NoResult;
    ExtendNoResult(o);
    assert Counted(o, StimRule) == 1;
    assert Counted(o, MedkitRule) == 0 && Counted(o, MedicalRule) == 0;
  }

  /** The same stimulator, once the blacklist naming it is enabled, is left
      alone and counted nowhere. */
  lemma BlacklistScenario(locale: Locale)
    ensures Patch(FourUseStims.(enableBlacklist := true), [SampleStim], locale)
         == PatchResult([SampleStim], 0, 0, 0, [])
  {
    assert "X" in FourUseStims.blacklistedStims;
    SkippedSingleton(FourUseStims.(enableBlacklist := true), SampleStim, locale);
  }

  const SampleKit := Item("K", Medkit, Props(Some(1800), map[]))

  /** A medkit whose name has no `medkit_hp` entry loses its hit-point pool. */
  lemma MissingMedkitEntryScenario(locale: Locale)
    requires NameKey("K") in locale && locale[NameKey("K")] == "Grizzly"
    ensures Patch(FourUseStims.(modifyMedical := true, medkitHp := map["AI-2" := 100]), [SampleKit], locale).items
         == [SampleKit.(props := Props(None, map[]))]
  {
    var cfg := FourUseStims.(modifyMedical := true, medkitHp := map["AI-2" := 100]);
    assert "Grizzly" !in cfg.medkitHp;
    assert Fires(cfg, MedkitRule, SampleKit) && !Fires(cfg, MedicalRule, SampleKit);
    assert [SampleKit][..0] == [];
    PatchUnfold(cfg, [SampleKit], locale);
  }
}
