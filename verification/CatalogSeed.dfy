/**
 Seeding device categories and tier modules (alembic/seeds/isp_seed.py): rows are inserted once, and what an
 administrator edits afterwards is to survive every later run.
 */
module CatalogSeed {
  import opened Common

  datatype Key =
    | ROUTER | SWITCH | OLT | ONU | MICRONODE | SPLITTER | SPLICE_CLOSURE | MUFA | PATCH_PANEL | ACCESS_POINT | CPE_ROUTER
    | UPS | ANTENNA | RADIO | OTHER_KEY | PATCH_CORD | FIBER_OPTIC | DISTRIBUTION_BOX | MODEM | SIM_CARD | SET_TOP_BOX
    | FUSION_SPLICER | BARCODE_SCANNER | CustomKey(text: string)

  datatype Tier = CORE | EDGE | CONSUMABLE | TOOL | OTHER

  datatype Category = Category(name: string, order: int, tier: Option<Tier>, passive: bool, active: bool)

  /** Which columns the migrations run so far have created. */
  datatype Position = Position(hasTier: bool, general: bool, hasPassive: bool)

  type Categories = map<Key, Category>

  function Baseline(): seq<Key> {
    [ROUTER, SWITCH, OLT, ONU, MICRONODE, SPLITTER, SPLICE_CLOSURE, MUFA, PATCH_PANEL, ACCESS_POINT, CPE_ROUTER, UPS,
     ANTENNA, RADIO, OTHER_KEY, PATCH_CORD, FIBER_OPTIC, DISTRIBUTION_BOX, MODEM, SIM_CARD, SET_TOP_BOX, FUSION_SPLICER,
     BARCODE_SCANNER]
  }

  function BaselineTier(k: Key): Option<Tier> {
    match k
    case ROUTER | SWITCH | OLT => Some(CORE)
    case ONU | MICRONODE | ACCESS_POINT | CPE_ROUTER | MODEM | SET_TOP_BOX => Some(EDGE)
    case OTHER_KEY | SIM_CARD => Some(OTHER)
    case PATCH_CORD | FIBER_OPTIC | DISTRIBUTION_BOX => Some(CONSUMABLE)
    case FUSION_SPLICER | BARCODE_SCANNER => Some(TOOL)
    case _ => None
  }

  function BaselineName(k: Key): string {
    match k
    case ROUTER => "Router"
    case SWITCH => "Switch"
    case OLT => "OLT"
    case ONU => "ONU / ONT"
    case MICRONODE => "Micronodo"
    case SPLITTER => "Splitter"
    case SPLICE_CLOSURE => "Splice Closure"
    case MUFA => "MUFA"
    case PATCH_PANEL => "Patch Panel"
    case ACCESS_POINT => "Access Point"
    case CPE_ROUTER => "CPE Router"
    case UPS => "UPS"
    case ANTENNA => "Antenna"
    case RADIO => "Radio"
    case OTHER_KEY => "Other"
    case PATCH_CORD => "Patch cords"
    case FIBER_OPTIC => "Fibra optica"
    case DISTRIBUTION_BOX => "Cajas de distribucion"
    case MODEM => "Modems"
    case SIM_CARD => "Tarjetas SIM"
    case SET_TOP_BOX => "Decodificadores"
    case FUSION_SPLICER => "Fusionadora de fibra"
    case BARCODE_SCANNER => "Escaner de codigos"
    case CustomKey(_) => ""
  }

  function BaselineOrder(k: Key): int {
    match k
    case ROUTER => 10
    case SWITCH => 20
    case OLT => 30
    case ONU => 40
    case MICRONODE => 45
    case SPLITTER => 50
    case SPLICE_CLOSURE => 60
    case MUFA => 65
    case PATCH_PANEL => 70
    case ACCESS_POINT => 80
    case CPE_ROUTER => 90
    case UPS => 100
    case ANTENNA => 110
    case RADIO => 120
    case OTHER_KEY => 130
    case PATCH_CORD => 200
    case FIBER_OPTIC => 210
    case DISTRIBUTION_BOX => 220
    case MODEM => 230
    case SIM_CARD => 240
    case SET_TOP_BOX => 250
    case FUSION_SPLICER => 300
    case BARCODE_SCANNER => 310
    case CustomKey(_) => 0
  }

  predicate BaselinePassive(k: Key) {
    k in {MICRONODE, SPLITTER, SPLICE_CLOSURE, MUFA, PATCH_PANEL, ANTENNA}
  }

  predicate BaselineActive(k: Key) {
    k in {ROUTER, SWITCH, OLT, ONU, MICRONODE, PATCH_CORD, FIBER_OPTIC}
  }

  /** The rows that came with the general inventory. */
  predicate IsGeneralKey(k: Key) {
    k in {MUFA, PATCH_CORD, FIBER_OPTIC, DISTRIBUTION_BOX, MODEM, SIM_CARD, SET_TOP_BOX, FUSION_SPLICER, BARCODE_SCANNER}
  }

  /** The tiers that the CHECK allowed before the general inventory. */
  predicate IsOldTier(tier: Option<Tier>) {
    tier in {None, Some(CORE), Some(EDGE)}
  }

  /** The tier that the seed gives `k` at position `p`. */
  function SeedTier(p: Position, k: Key): Option<Tier> {
    if !p.hasTier || (!p.general && !IsOldTier(BaselineTier(k))) then None else BaselineTier(k)
  }

  predicate IsSkipped(p: Position, k: Key) {
    !p.general && IsGeneralKey(k)
  }

  /* ---------- One run ---------- */

  function NewRow(p: Position, k: Key): Category {
    Category(BaselineName(k), BaselineOrder(k), SeedTier(p, k), false, BaselineActive(k))
  }

  /** ON CONFLICT (key) DO NOTHING for each of `keys`. */
  function Inserted(p: Position, rows: Categories, keys: seq<Key>): Categories {
    map k | k in rows.Keys + (set k | k in keys && !IsSkipped(p, k)) :: if k in rows then rows[k] else NewRow(p, k)
  }

  predicate AnyTier(rows: Categories) {
    exists k :: k in rows && rows[k].tier.Some?
  }

  predicate AnyPassive(rows: Categories) {
    exists k :: k in rows && rows[k].passive
  }

  function TierFilled(p: Position, rows: Categories, keys: seq<Key>): Categories {
    map k | k in rows :: if k in keys && rows[k].tier.None? then rows[k].(tier := SeedTier(p, k)) else rows[k]
  }

  function PassiveFilled(rows: Categories, keys: seq<Key>): Categories {
    map k | k in rows :: if k in keys && BaselinePassive(k) then rows[k].(passive := true) else rows[k]
  }

  function WithTiers(p: Position, rows: Categories, keys: seq<Key>): Categories {
    if p.hasTier && !AnyTier(rows) then TierFilled(p, rows, keys) else rows
  }

  function WithPassives(p: Position, rows: Categories, keys: seq<Key>): Categories {
    if p.hasPassive && !AnyPassive(rows) then PassiveFilled(rows, keys) else rows
  }

  /** _seed_device_categories, where `keys` are the baseline rows. */
  function Seeded(p: Position, rows: Categories, keys: seq<Key>): Categories {
    WithPassives(p, WithTiers(p, Inserted(p, rows, keys), keys), keys)
  }

  /** All that the proofs need of the baseline: a tiered and a passive row that every position inserts. */
  predicate IsBaseline(keys: seq<Key>) {
    ROUTER in keys && SPLITTER in keys
  }

  lemma BaselineIsOne()
    ensures IsBaseline(Baseline())
  {
    assert Baseline()[0] == ROUTER && Baseline()[5] == SPLITTER;
  }

  /* ---------- Edits survive ---------- */

  lemma TierRow(p: Position, rows: Categories, keys: seq<Key>, k: Key)
    ensures k in WithTiers(p, rows, keys) <==> k in rows
    ensures k in rows ==>
              WithTiers(p, rows, keys)[k] ==
              rows[k].(tier := if p.hasTier && !AnyTier(rows) && k in keys && rows[k].tier.None? then SeedTier(p, k) else rows[k].tier)
  {
  }

  lemma PassiveRow(p: Position, rows: Categories, keys: seq<Key>, k: Key)
    ensures k in WithPassives(p, rows, keys) <==> k in rows
    ensures k in rows ==>
              WithPassives(p, rows, keys)[k] ==
              rows[k].(passive := rows[k].passive || (p.hasPassive && !AnyPassive(rows) && k in keys && BaselinePassive(k)))
  {
  }

  /** One row after each of the three steps. */
  lemma SeededRow(p: Position, rows: Categories, keys: seq<Key>, k: Key)
    ensures k in Seeded(p, rows, keys) <==> k in rows || (k in keys && !IsSkipped(p, k))
    ensures k in Seeded(p, rows, keys) ==>
              var inserted := Inserted(p, rows, keys);
              var row, after := inserted[k], Seeded(p, rows, keys)[k];
              && after == row.(tier := after.tier, passive := after.passive)
              && after.tier == (if p.hasTier && !AnyTier(inserted) && k in keys && row.tier.None? then SeedTier(p, k) else row.tier)
              && after.passive == (row.passive || (p.hasPassive && !AnyPassive(WithTiers(p, inserted, keys)) && k in keys && BaselinePassive(k)))
  {
    var inserted := Inserted(p, rows, keys);
    TierRow(p, inserted, keys, k);
    PassiveRow(p, WithTiers(p, inserted, keys), keys, k);
  }

  /** A row of `rows` is never removed, renamed, or switched on or off again. */
  lemma SeedIsInsertOnly(p: Position, rows: Categories, keys: seq<Key>, k: Key)
    requires k in rows
    ensures k in Seeded(p, rows, keys)
    ensures var after := Seeded(p, rows, keys)[k]; after == rows[k].(tier := after.tier, passive := after.passive)
  {
    SeededRow(p, rows, keys, k);
  }

  /** A row that is inserted takes everything from the baseline, but for a tier that its position does not know yet. */
  lemma NewRowIs(p: Position, rows: Categories, keys: seq<Key>, k: Key)
    requires k in keys && k !in rows && (p.general || !IsGeneralKey(k))
    ensures k in Inserted(p, rows, keys)
    ensures var row := Inserted(p, rows, keys)[k];
            && row.name == BaselineName(k) && row.order == BaselineOrder(k) && row.active == BaselineActive(k) && !row.passive
            && (p.hasTier && p.general ==> row.tier == BaselineTier(k))
            && (!p.hasTier ==> row.tier.None?)
            && (p.hasTier && !p.general ==> row.tier == (if BaselineTier(k) in {Some(CORE), Some(EDGE)} then BaselineTier(k) else None))
  {
  }

  /** The backfill of an unclassified table gives each baseline row that lacks a tier the tier a fresh row would get. */
  lemma BackfilledTiers(p: Position, rows: Categories, keys: seq<Key>, k: Key)
    requires p.hasTier && k in rows && forall j | j in Inserted(p, rows, keys) :: Inserted(p, rows, keys)[j].tier.None?
    ensures k in Seeded(p, rows, keys)
    ensures Seeded(p, rows, keys)[k].tier ==
            if k in keys && (p.general || BaselineTier(k) in {Some(CORE), Some(EDGE)}) then BaselineTier(k) else None
  {
    SeededRow(p, rows, keys, k);
  }

  /** The backfill of a table without passive rows marks the passive rows of the baseline and no others. */
  lemma BackfilledPassives(p: Position, rows: Categories, keys: seq<Key>, k: Key)
    requires p.hasPassive && k in Seeded(p, rows, keys) && forall j | j in rows :: !rows[j].passive
    ensures Seeded(p, rows, keys)[k].passive <==> k in keys && BaselinePassive(k)
  {
    SeededRow(p, rows, keys, k);
    PassiveBefore(p, rows, keys);
  }

  /** Filling tiers leaves the passive flags, and inserting adds none. */
  lemma PassiveBefore(p: Position, rows: Categories, keys: seq<Key>)
    ensures AnyPassive(WithTiers(p, Inserted(p, rows, keys), keys)) <==> AnyPassive(rows)
  {
    var tiered := WithTiers(p, Inserted(p, rows, keys), keys);
    assert forall k | k in tiered :: tiered[k].passive == (k in rows && rows[k].passive);
    if AnyPassive(rows) {
      var k :| k in rows && rows[k].passive;
      assert tiered[k].passive;
    }
  }

  /** After a run, some row is classified. */
  lemma SeedClassifies(p: Position, rows: Categories, keys: seq<Key>)
    requires IsBaseline(keys)
    ensures p.hasTier ==> AnyTier(Seeded(p, rows, keys))
    ensures p.hasPassive ==> AnyPassive(Seeded(p, rows, keys))
  {
    var inserted := Inserted(p, rows, keys);
    SeededRow(p, rows, keys, ROUTER);
    SeededRow(p, rows, keys, SPLITTER);
    if AnyTier(inserted) {
      var k :| k in inserted && inserted[k].tier.Some?;
      SeededRow(p, rows, keys, k);
    }
    if AnyPassive(rows) {
      var k :| k in rows && rows[k].passive;
      SeededRow(p, rows, keys, k);
    }
    PassiveBefore(p, rows, keys);
  }

  /** A second run changes nothing. */
  lemma SeedTwice(p: Position, rows: Categories, keys: seq<Key>)
    requires IsBaseline(keys)
    ensures Seeded(p, Seeded(p, rows, keys), keys) == Seeded(p, rows, keys)
  {
    SeedClassifies(p, rows, keys);
    InsertedTwice(p, rows, keys);
  }

  lemma InsertedTwice(p: Position, rows: Categories, keys: seq<Key>)
    ensures Inserted(p, Seeded(p, rows, keys), keys) == Seeded(p, rows, keys)
  {
    var after := Seeded(p, rows, keys);
    forall k | k in keys && !IsSkipped(p, k) ensures k in after {
      SeededRow(p, rows, keys, k);
    }
  }

  /** Some tier is set, or a row is missing that will be inserted with one. */
  ghost predicate WillBeClassified(p: Position, rows: Categories, keys: seq<Key>) {
    AnyTier(rows) || exists k :: k in keys && k !in rows && !IsSkipped(p, k) && SeedTier(p, k).Some?
  }

  lemma ClassifiedIff(p: Position, rows: Categories, keys: seq<Key>)
    ensures AnyTier(Inserted(p, rows, keys)) <==> WillBeClassified(p, rows, keys)
  {
    var inserted := Inserted(p, rows, keys);
    if AnyTier(rows) {
      var k :| k in rows && rows[k].tier.Some?;
      assert inserted[k].tier.Some?;
    }
    if k :| k in keys && k !in rows && !IsSkipped(p, k) && SeedTier(p, k).Some? {
      assert inserted[k].tier.Some?;
    }
  }

  /** Edited and cleared tiers are kept exactly when some row is classified once the missing ones are there. */
  lemma TiersKeptIff(p: Position, rows: Categories, keys: seq<Key>)
    requires IsBaseline(keys)
    ensures (forall k | k in rows :: k in Seeded(p, rows, keys) && Seeded(p, rows, keys)[k].tier == rows[k].tier) <==>
            !p.hasTier || WillBeClassified(p, rows, keys)
  {
    ClassifiedIff(p, rows, keys);
    if !p.hasTier || WillBeClassified(p, rows, keys) {
      forall k | k in rows ensures k in Seeded(p, rows, keys) && Seeded(p, rows, keys)[k].tier == rows[k].tier {
        SeededRow(p, rows, keys, k);
      }
    } else {
      SeededRow(p, rows, keys, ROUTER);
      assert ROUTER in rows && rows[ROUTER].tier.None?;
    }
  }

  /** Edited passive flags are kept exactly when some row is passive, or no existing row is passive by default. */
  lemma PassivesKeptIff(p: Position, rows: Categories, keys: seq<Key>)
    ensures (forall k | k in rows :: k in Seeded(p, rows, keys) && Seeded(p, rows, keys)[k].passive == rows[k].passive) <==>
            !p.hasPassive || AnyPassive(rows) || forall k | k in rows && k in keys :: !BaselinePassive(k)
  {
    PassiveBefore(p, rows, keys);
    forall k | k in rows
      ensures k in Seeded(p, rows, keys) && (Seeded(p, rows, keys)[k].passive == rows[k].passive <==>
                !p.hasPassive || AnyPassive(rows) || k !in keys || !BaselinePassive(k))
    {
      SeededRow(p, rows, keys, k);
    }
  }

  /** Before the general inventory, no tier outside the old vocabulary is written. */
  lemma OldVocabularyKept(p: Position, rows: Categories, keys: seq<Key>)
    requires !p.general && forall k | k in rows :: IsOldTier(rows[k].tier)
    ensures forall k | k in Seeded(p, rows, keys) :: IsOldTier(Seeded(p, rows, keys)[k].tier)
  {
    forall k | k in Seeded(p, rows, keys) ensures IsOldTier(Seeded(p, rows, keys)[k].tier) {
      SeededRow(p, rows, keys, k);
    }
  }

  /** A run at any other position leaves alone the tiers that a run before it left. */
  lemma OtherPositionsKeepTiers(p: Position, q: Position, rows: Categories, keys: seq<Key>, k: Key)
    requires IsBaseline(keys) && p.hasTier && k in Seeded(p, rows, keys)
    ensures var once := Seeded(p, rows, keys);
            k in Seeded(q, once, keys) && Seeded(q, once, keys)[k].tier == once[k].tier
  {
    SeedClassifies(p, rows, keys);
    TiersKeptIff(q, Seeded(p, rows, keys), keys);
  }

  /* ---------- Tier modules ---------- */

  function IspModules(): seq<string> {
    ["inventory", "topologies", "provisioning"]
  }

  /** list(dict.fromkeys(s)): the first occurrence of each element. */
  function Deduped<T(==)>(s: seq<T>): seq<T> {
    if s == [] then []
    else
      var front := Deduped(s[..|s| - 1]);
      if s[|s| - 1] in front then front else front + [s[|s| - 1]]
  }

  ghost predicate NoRepeats<T>(s: seq<T>) {
    forall a, b | 0 <= a < b < |s| :: s[a] != s[b]
  }

  lemma {:induction false} DedupedElements<T>(s: seq<T>, x: T)
    ensures x in Deduped(s) <==> x in s
  {
    if s != [] {
      DedupedElements(s[..|s| - 1], x);
      assert s == s[..|s| - 1] + [s[|s| - 1]];
    }
  }

  lemma {:induction false} DedupedHasNoRepeats<T>(s: seq<T>)
    ensures NoRepeats(Deduped(s))
  {
    if s != [] {
      DedupedHasNoRepeats(s[..|s| - 1]);
    }
  }

  lemma {:induction false} NoRepeatsIsFixed<T>(s: seq<T>)
    ensures Deduped(s) == s <==> NoRepeats(s)
  {
    DedupedHasNoRepeats(s);
    if NoRepeats(s) && s != [] {
      var front := s[..|s| - 1];
      NoRepeatsIsFixed(front);
      assert s == front + [s[|s| - 1]];
    }
  }

  /** Appending keeps what was there in its place. */
  lemma {:induction false} DedupedGrows<T>(s: seq<T>, t: seq<T>)
    ensures Deduped(s) <= Deduped(s + t)
    ensures (forall x | x in t :: x in s) ==> Deduped(s + t) == Deduped(s)
  {
    if t == [] {
      assert s + t == s;
    } else {
      var front := t[..|t| - 1];
      assert (s + t)[..|s + t| - 1] == s + front;
      DedupedGrows(s, front);
      DedupedElements(s, t[|t| - 1]);
    }
  }

  /** The merged module list of a tier. */
  function Merged(modules: seq<string>): seq<string> {
    Deduped(modules + IspModules())
  }

  /** Modules stay in their order, the ISP modules are there, and nothing else. */
  lemma MergedKeepsModules(modules: seq<string>, x: string)
    ensures Deduped(modules) <= Merged(modules) && NoRepeats(Merged(modules))
    ensures x in Merged(modules) <==> x in modules || x in IspModules()
  {
    DedupedGrows(modules, IspModules());
    DedupedHasNoRepeats(modules + IspModules());
    DedupedElements(modules + IspModules(), x);
  }

  /** A tier row is left alone exactly when it lists every ISP module and nothing twice. */
  lemma MergedIsSameIff(modules: seq<string>)
    ensures Merged(modules) == modules <==> NoRepeats(modules) && forall x | x in IspModules() :: x in modules
  {
    NoRepeatsIsFixed(modules);
    DedupedGrows(modules, IspModules());
    if Merged(modules) == modules {
      DedupedHasNoRepeats(modules + IspModules());
      forall x | x in IspModules() ensures x in modules {
        MergedKeepsModules(modules, x);
      }
    }
  }

  lemma MergedTwice(modules: seq<string>)
    ensures Merged(Merged(modules)) == Merged(modules)
  {
    DedupedHasNoRepeats(modules + IspModules());
    forall x | x in IspModules() ensures x in Merged(modules) {
      MergedKeepsModules(modules, x);
    }
    MergedIsSameIff(Merged(modules));
  }

  /* ---------- The seed as it runs ---------- */

  class CatalogTables {
    var categories: Categories
    var tiers: map<Id, seq<string>>

    constructor (categories: Categories, tiers: map<Id, seq<string>>)
      ensures this.categories == categories && this.tiers == tiers
    {
      this.categories, this.tiers := categories, tiers;
    }

    method InsertMissing(p: Position)
      modifies `categories
      ensures categories == Inserted(p, old(categories), Baseline())
    {
      var keys := Baseline();
      for i := 0 to |keys|
        invariant categories == Inserted(p, old(categories), keys[..i])
      {
        InsertedNext(p, old(categories), keys, i);
        if !IsSkipped(p, keys[i]) && keys[i] !in categories {
          categories := categories[keys[i] := NewRow(p, keys[i])];
        }
      }
      assert keys[..|keys|] == keys;
    }

    method FillTiers(p: Position)
      requires p.hasTier
      modifies `categories
      ensures categories == WithTiers(p, old(categories), Baseline())
    {
      if AnyTier(categories) {
        return;
      }
      var keys := Baseline();
      for i := 0 to |keys|
        invariant categories == TierFilled(p, old(categories), keys[..i])
      {
        TierFilledNext(p, old(categories), keys, i);
        var k := keys[i];
        if SeedTier(p, k).Some? && k in categories && categories[k].tier.None? {
          categories := categories[k := categories[k].(tier := SeedTier(p, k))];
        }
      }
      assert keys[..|keys|] == keys;
    }

    method FillPassives()
      modifies `categories
      ensures categories == if AnyPassive(old(categories)) then old(categories) else PassiveFilled(old(categories), Baseline())
    {
      if AnyPassive(categories) {
        return;
      }
      var keys := Baseline();
      for i := 0 to |keys|
        invariant categories == PassiveFilled(old(categories), keys[..i])
      {
        PassiveFilledNext(old(categories), keys, i);
        var k := keys[i];
        if BaselinePassive(k) && k in categories {
          categories := categories[k := categories[k].(passive := true)];
        }
      }
      assert keys[..|keys|] == keys;
    }

    /** _seed_device_categories: seeding again is idle, and tier edits were kept exactly if some row is classified. */
    method SeedCategories(p: Position)
      modifies `categories
      ensures categories == Seeded(p, old(categories), Baseline())
      ensures Seeded(p, categories, Baseline()) == categories
      ensures (forall k | k in old(categories) :: k in categories && categories[k].tier == old(categories)[k].tier) <==>
              !p.hasTier || WillBeClassified(p, old(categories), Baseline())
    {
      BaselineIsOne();
      SeedTwice(p, categories, Baseline());
      TiersKeptIff(p, categories, Baseline());
      InsertMissing(p);
      if p.hasTier {
        FillTiers(p);
      }
      if p.hasPassive {
        FillPassives();
      }
    }

    /** _seed_tier_modules */
    method SeedModules()
      modifies `tiers
      ensures tiers == map t | t in old(tiers) :: Merged(old(tiers)[t])
    {
      var left := tiers.Keys;
      while left != {}
        invariant left <= tiers.Keys == old(tiers).Keys
        invariant forall t | t in tiers :: tiers[t] == (if t in left then old(tiers)[t] else Merged(old(tiers)[t]))
        decreases |left|
      {
        NonEmpty(left);
        var t :| t in left;
        var merged := Merged(tiers[t]);
        if merged != tiers[t] {
          tiers := tiers[t := merged];
        }
        left := left - {t};
      }
      assert forall t | t in tiers :: tiers[t] == Merged(old(tiers)[t]);
    }
  }

  lemma InsertedNext(p: Position, rows: Categories, keys: seq<Key>, i: nat)
    requires i < |keys|
    ensures var one := Inserted(p, rows, keys[..i]);
            Inserted(p, rows, keys[..i + 1]) ==
            if IsSkipped(p, keys[i]) || keys[i] in one then one else one[keys[i] := NewRow(p, keys[i])]
  {
    assert keys[..i + 1] == keys[..i] + [keys[i]];
  }

  lemma TierFilledNext(p: Position, rows: Categories, keys: seq<Key>, i: nat)
    requires i < |keys|
    ensures var one, k := TierFilled(p, rows, keys[..i]), keys[i];
            TierFilled(p, rows, keys[..i + 1]) ==
            if k in one && one[k].tier.None? && SeedTier(p, k).Some? then one[k := one[k].(tier := SeedTier(p, k))] else one
  {
    assert keys[..i + 1] == keys[..i] + [keys[i]];
  }

  lemma PassiveFilledNext(rows: Categories, keys: seq<Key>, i: nat)
    requires i < |keys|
    ensures var one, k := PassiveFilled(rows, keys[..i]), keys[i];
            PassiveFilled(rows, keys[..i + 1]) ==
            if k in one && BaselinePassive(k) then one[k := one[k].(passive := true)] else one
  {
    assert keys[..i + 1] == keys[..i] + [keys[i]];
  }
}
