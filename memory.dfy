/**
 * The knowledge store of the invoice-learning engine: learned vendor field
 * mappings, text correction patterns and per-issue resolution tallies, each
 * carrying a confidence, and the rules by which human feedback moves it.
 *
 * Confidences are exact reals; the floating-point drift of repeated `+ 0.1`
 * is not part of the model. Timestamps come in as the parameter `now`.
 */
module KnowledgeStore {
  import opened Strings

  datatype Option<T> = None | Some(value: T)

  function Lookup<K, V>(m: map<K, V>, k: K): (r: Option<V>)
    ensures r.Some? <==> k in m
    ensures r.Some? ==> r.value == m[k]
  {
    if k in m then Some(m[k]) else None
  }

  function Min(a: real, b: real): real { if a <= b then a else b }
  function Max(a: real, b: real): real { if a >= b then a else b }

  /** What a vendor's invoices call `sourceField` is the normalized field it is filed under. */
  datatype FieldMapping = FieldMapping(
    sourceField: string,
    confidence: real,
    learnedFrom: seq<string>,
    approvedByHuman: bool,
    approvalCount: nat)

  datatype VendorMemory = VendorMemory(
    vendorName: string,
    fieldMappings: map<string, FieldMapping>,
    lastSeen: string)

  datatype CorrectionMemory = CorrectionMemory(
    pattern: string,
    correction: string,
    confidence: real,
    count: nat)

  datatype ResolutionMemory = ResolutionMemory(
    issue: string,
    approvedCount: nat,
    rejectedCount: nat,
    confidence: real)

  datatype MemoryStore = MemoryStore(
    vendors: map<string, VendorMemory>,
    corrections: map<string, CorrectionMemory>,
    resolutions: map<string, ResolutionMemory>)

  /** A human's verdict on one invoice, with the rules the human taught. */
  datatype LearnedRule = LearnedRule(rule: string, value: string)

  datatype HumanCorrection = HumanCorrection(
    vendor: string,
    invoiceId: string,
    approved: bool,
    learnedRules: seq<LearnedRule>)

  const EmptyStore: MemoryStore := MemoryStore(map[], map[], map[])

  // ---------------------------------------------------------------------
  // Single entries
  // ---------------------------------------------------------------------

  /**
   * The mapping for a target field after a human approves it: a new mapping is
   * trusted at once (0.85); an existing one is reinforced by 0.1 up to 1 and
   * keeps the source field and provenance it was learned with.
   */
  function ApprovedMapping(existing: Option<FieldMapping>, sourceField: string): (m: FieldMapping)
    ensures m.approvedByHuman
    ensures existing.None? ==> m == FieldMapping(sourceField, 0.85, ["human"], true, 1)
    ensures existing.Some? ==> && m.sourceField == existing.value.sourceField
                               && m.learnedFrom == existing.value.learnedFrom
                               && m.approvalCount == existing.value.approvalCount + 1
    ensures existing.Some? ==> m.confidence == Min(1.0, existing.value.confidence + 0.1)
    ensures existing.Some? && existing.value.confidence <= 1.0 ==>
              existing.value.confidence <= m.confidence <= 1.0
  {
    match existing
    case None => FieldMapping(sourceField, 0.85, ["human"], true, 1)
    case Some(prev) =>
      prev.(approvedByHuman := true,
            approvalCount := prev.approvalCount + 1,
            confidence := Min(1.0, prev.confidence + 0.1))
  }

  /** The mapping after `n` approvals of a target field that had none. */
  function Approvals(sourceField: string, n: nat): Option<FieldMapping>
  {
    if n == 0 then None else Some(ApprovedMapping(Approvals(sourceField, n - 1), sourceField))
  }

  /** After `n` approvals the confidence is 0.85 plus 0.1 per further approval, capped at 1. */
  lemma {:induction false} RepeatedApproval(sourceField: string, n: nat)
    requires n >= 1
    ensures Approvals(sourceField, n)
         == Some(FieldMapping(sourceField, Min(1.0, 0.85 + 0.1 * (n - 1) as real), ["human"], true, n))
  {
    if n > 1 {
      RepeatedApproval(sourceField, n - 1);
    }
  }

  /** A correction's confidence is determined by how often it was reinforced. */
  ghost predicate CorrectionCalibrated(c: CorrectionMemory)
  {
    c.count >= 1 && c.confidence == Min(1.0, 0.4 + 0.1 * (c.count - 1) as real)
  }

  /**
   * The correction for a pattern after it is seen once more: created at 0.4, or
   * reinforced by 0.1 up to 1, keeping the correction text first recorded.
   */
  function ReinforcedCorrection(existing: Option<CorrectionMemory>, pattern: string, correction: string)
    : (c: CorrectionMemory)
    ensures existing.None? ==> c == CorrectionMemory(pattern, correction, 0.4, 1)
    ensures existing.Some? ==> && c.pattern == existing.value.pattern
                               && c.correction == existing.value.correction
                               && c.count == existing.value.count + 1
                               && c.confidence == Min(1.0, existing.value.confidence + 0.1)
    ensures existing.Some? && existing.value.confidence <= 1.0 ==>
              existing.value.confidence <= c.confidence <= 1.0
    ensures (existing.None? || CorrectionCalibrated(existing.value)) ==> CorrectionCalibrated(c)
  {
    match existing
    case None => CorrectionMemory(pattern, correction, 0.4, 1)
    case Some(prev) =>
      prev.(count := prev.count + 1, confidence := Min(1.0, prev.confidence + 0.1))
  }

  /**
   * The confidence a resolution tally should carry: 0.6 or 0.3 after its first
   * outcome, afterwards the share of approvals.
   */
  function SeededRatio(approvedCount: nat, rejectedCount: nat): real
    requires approvedCount + rejectedCount >= 1
  {
    if approvedCount + rejectedCount == 1 then (if approvedCount == 1 then 0.6 else 0.3)
    else approvedCount as real / (approvedCount + rejectedCount) as real
  }

  lemma RatioInUnitInterval(a: nat, t: nat)
    requires a <= t && t >= 1
    ensures 0.0 <= a as real / t as real <= 1.0
  {
    var q := a as real / t as real;
    assert q * t as real == a as real;
  }

  ghost predicate ResolutionCalibrated(r: ResolutionMemory)
  {
    r.approvedCount + r.rejectedCount >= 1 && r.confidence == SeededRatio(r.approvedCount, r.rejectedCount)
  }

  /**
   * The tally for an issue after one more outcome: exactly the matching counter
   * goes up by one, and the confidence follows `SeededRatio`.
   */
  function RecordedResolution(existing: Option<ResolutionMemory>, issue: string, approved: bool)
    : (r: ResolutionMemory)
    ensures r.issue == (if existing.Some? then existing.value.issue else issue)
    ensures r.approvedCount == (if existing.Some? then existing.value.approvedCount else 0)
                               + (if approved then 1 else 0)
    ensures r.rejectedCount == (if existing.Some? then existing.value.rejectedCount else 0)
                               + (if approved then 0 else 1)
    ensures existing.None? ==> r.confidence == (if approved then 0.6 else 0.3)
    ensures existing.Some? ==> r.confidence == r.approvedCount as real / (r.approvedCount + r.rejectedCount) as real
    ensures 0.0 <= r.confidence <= 1.0
    ensures (existing.None? || ResolutionCalibrated(existing.value)) ==> ResolutionCalibrated(r)
  {
    match existing
    case None =>
      ResolutionMemory(issue, if approved then 1 else 0, if approved then 0 else 1, if approved then 0.6 else 0.3)
    case Some(prev) =>
      var a := prev.approvedCount + (if approved then 1 else 0);
      var j := prev.rejectedCount + (if approved then 0 else 1);
      RatioInUnitInterval(a, a + j);
      prev.(approvedCount := a, rejectedCount := j, confidence := a as real / (a + j) as real)
  }

  /** The tally of an issue that saw the outcomes `calls`, in order, from nothing. */
  function Tally(issue: string, calls: seq<bool>): Option<ResolutionMemory>
  {
    if calls == [] then None
    else Some(RecordedResolution(Tally(issue, calls[..|calls| - 1]), issue, calls[|calls| - 1]))
  }

  function CountApproved(calls: seq<bool>): (n: nat)
    ensures n <= |calls|
  {
    if calls == [] then 0
    else CountApproved(calls[..|calls| - 1]) + (if calls[|calls| - 1] then 1 else 0)
  }

  /**
   * Every call is counted once: the two counters add up to the number of
   * calls, the approvals to the approving ones, and the confidence is the
   * seeded ratio of the two.
   */
  lemma {:induction false} TallyCountsEveryCall(issue: string, calls: seq<bool>)
    requires calls != []
    ensures Tally(issue, calls).Some?
    ensures var r := Tally(issue, calls).value;
            && r.issue == issue
            && r.approvedCount == CountApproved(calls)
            && r.approvedCount + r.rejectedCount == |calls|
            && ResolutionCalibrated(r)
  {
    if |calls| > 1 {
      TallyCountsEveryCall(issue, calls[..|calls| - 1]);
    }
  }

  // ---------------------------------------------------------------------
  // The whole store
  // ---------------------------------------------------------------------

  /**
   * What every store built by these operations satisfies: each record sits
   * under its own name, and every correction and resolution confidence is the
   * one its counters determine.
   */
  ghost predicate Consistent(s: MemoryStore)
  {
    && (forall v :: v in s.vendors ==> s.vendors[v].vendorName == v)
    && (forall p :: p in s.corrections ==> s.corrections[p].pattern == p && CorrectionCalibrated(s.corrections[p]))
    && (forall i :: i in s.resolutions ==> s.resolutions[i].issue == i && ResolutionCalibrated(s.resolutions[i]))
  }

  lemma EmptyStoreConsistent()
    ensures Consistent(EmptyStore)
  {
  }

  /** The field mappings a store holds for a vendor; none for an unknown vendor. */
  function MappingsOf(s: MemoryStore, vendorName: string): map<string, FieldMapping>
  {
    if vendorName in s.vendors then s.vendors[vendorName].fieldMappings else map[]
  }

  /** `ensureVendor`: an unknown vendor gets an empty record; a known one is left alone. */
  function EnsuredVendor(s: MemoryStore, vendorName: string, now: string): (s': MemoryStore)
    ensures vendorName in s'.vendors
    ensures vendorName in s.vendors ==> s' == s
    ensures vendorName !in s.vendors ==>
              && s'.vendors.Keys == s.vendors.Keys + {vendorName}
              && s'.vendors[vendorName].fieldMappings == map[]
              && (forall v :: v in s.vendors ==> s'.vendors[v] == s.vendors[v])
    ensures s'.corrections == s.corrections && s'.resolutions == s.resolutions
    ensures Consistent(s) ==> Consistent(s')
  {
    if vendorName in s.vendors then s
    else s.(vendors := s.vendors[vendorName := VendorMemory(vendorName, map[], now)])
  }

  /** Ensuring a vendor twice is ensuring it once. */
  lemma EnsureVendorIdempotent(s: MemoryStore, vendorName: string, now: string, later: string)
    ensures EnsuredVendor(EnsuredVendor(s, vendorName, now), vendorName, later)
         == EnsuredVendor(s, vendorName, now)
  {
  }

  /**
   * `updateVendor`: the record filed under the caller's vendor name becomes the
   * caller's record with a fresh `lastSeen`; every field of the record type is
   * supplied by the caller, so the caller wins on all of them. Nothing else changes.
   */
  function UpdatedVendor(s: MemoryStore, vendor: VendorMemory, now: string): (s': MemoryStore)
    ensures s'.vendors.Keys == s.vendors.Keys + {vendor.vendorName}
    ensures s'.vendors[vendor.vendorName].fieldMappings == vendor.fieldMappings
    ensures s'.vendors[vendor.vendorName].lastSeen == now
    ensures forall v :: v in s.vendors && v != vendor.vendorName ==> s'.vendors[v] == s.vendors[v]
    ensures s'.corrections == s.corrections && s'.resolutions == s.resolutions
    ensures Consistent(s) ==> Consistent(s')
  {
    s.(vendors := s.vendors[vendor.vendorName := vendor.(lastSeen := now)])
  }

  /**
   * `approveVendorMapping`: ensure the vendor, approve the mapping for the
   * target field on the record in place, then write the record back through
   * `updateVendor`. In a consistent store only that one mapping of that one
   * vendor changes (and the vendor's `lastSeen`).
   */
  function Approved(s: MemoryStore, vendorName: string, sourceField: string, targetField: string, now: string)
    : (s': MemoryStore)
    ensures vendorName in s'.vendors && targetField in s'.vendors[vendorName].fieldMappings
    ensures s'.vendors[vendorName].fieldMappings[targetField].approvedByHuman
    ensures s'.corrections == s.corrections && s'.resolutions == s.resolutions
    ensures Consistent(s) ==>
              && s'.vendors.Keys == s.vendors.Keys + {vendorName}
              && (forall v :: v in s.vendors && v != vendorName ==> s'.vendors[v] == s.vendors[v])
              && s'.vendors[vendorName]
                 == VendorMemory(vendorName,
                                 MappingsOf(s, vendorName)[targetField :=
                                   ApprovedMapping(Lookup(MappingsOf(s, vendorName), targetField), sourceField)],
                                 now)
    ensures Consistent(s) ==> Consistent(s')
  {
    var s1 := EnsuredVendor(s, vendorName, now);
    var vendor := s1.vendors[vendorName];
    var mapping := ApprovedMapping(Lookup(vendor.fieldMappings, targetField), sourceField);
    var vendor' := vendor.(fieldMappings := vendor.fieldMappings[targetField := mapping]);
    UpdatedVendor(s1.(vendors := s1.vendors[vendorName := vendor']), vendor', now)
  }

  /** `updateCorrection`: only the entry for `pattern` changes. */
  function Corrected(s: MemoryStore, pattern: string, correction: string): (s': MemoryStore)
    ensures s'.corrections.Keys == s.corrections.Keys + {pattern}
    ensures s'.corrections[pattern] == ReinforcedCorrection(Lookup(s.corrections, pattern), pattern, correction)
    ensures forall p :: p in s.corrections && p != pattern ==> s'.corrections[p] == s.corrections[p]
    ensures s'.vendors == s.vendors && s'.resolutions == s.resolutions
    ensures Consistent(s) ==> Consistent(s')
  {
    s.(corrections := s.corrections[pattern := ReinforcedCorrection(Lookup(s.corrections, pattern), pattern, correction)])
  }

  /** `updateResolution`: only the entry for `issue` changes. */
  function Resolved(s: MemoryStore, issue: string, approved: bool): (s': MemoryStore)
    ensures s'.resolutions.Keys == s.resolutions.Keys + {issue}
    ensures s'.resolutions[issue] == RecordedResolution(Lookup(s.resolutions, issue), issue, approved)
    ensures forall i :: i in s.resolutions && i != issue ==> s'.resolutions[i] == s.resolutions[i]
    ensures s'.vendors == s.vendors && s'.corrections == s.corrections
    ensures Consistent(s) ==> Consistent(s')
  {
    s.(resolutions := s.resolutions[issue := RecordedResolution(Lookup(s.resolutions, issue), issue, approved)])
  }

  /**
   * A rule with an arrow teaches the vendor the mapping from the trimmed text
   * before it to the trimmed text after it; any other rule reinforces the
   * correction pattern spelled by the whole rule. Resolutions are never touched.
   */
  function LearnRule(s: MemoryStore, vendor: string, rule: LearnedRule, now: string): (s': MemoryStore)
    ensures s'.resolutions == s.resolutions
    ensures Arrow in rule.rule ==>
              var parts := Split(rule.rule, Arrow);
              && s'.corrections == s.corrections
              && vendor in s'.vendors && Trim(parts[1]) in s'.vendors[vendor].fieldMappings
              && s'.vendors[vendor].fieldMappings[Trim(parts[1])].approvedByHuman
              && s' == Approved(s, vendor, Trim(parts[0]), Trim(parts[1]), now)
    ensures Arrow !in rule.rule ==>
              && s'.vendors == s.vendors
              && s'.corrections == s.corrections[rule.rule := ReinforcedCorrection(Lookup(s.corrections, rule.rule),
                                                                                  rule.rule, rule.value)]
              && s' == Corrected(s, rule.rule, rule.value)
  {
    if Arrow in rule.rule then
      var parts := Split(rule.rule, Arrow);
      Approved(s, vendor, Trim(parts[0]), Trim(parts[1]), now)
    else
      Corrected(s, rule.rule, rule.value)
  }

  /** The patterns that the arrow-free rules among `rules` teach. */
  function PatternsTaught(rules: seq<LearnedRule>): set<string>
  {
    set r | r in rules && Arrow !in r.rule :: r.rule
  }

  /**
   * Learning the rules in order: resolutions are never touched, the new
   * correction patterns are exactly those of the arrow-free rules, a consistent
   * store stays consistent, and vendors other than `vendor` are left alone.
   */
  function LearnRules(s: MemoryStore, vendor: string, rules: seq<LearnedRule>, now: string): (s': MemoryStore)
    ensures s'.resolutions == s.resolutions
    ensures s'.corrections.Keys == s.corrections.Keys + PatternsTaught(rules)
    ensures Consistent(s) ==> Consistent(s')
    ensures Consistent(s) ==> forall v :: v in s.vendors && v != vendor ==> v in s'.vendors && s'.vendors[v] == s.vendors[v]
    ensures (forall r :: r in rules ==> Arrow !in r.rule) ==> s'.vendors == s.vendors
    decreases |rules|
  {
    if rules == [] then s
    else
      var init := rules[..|rules| - 1];
      var last := rules[|rules| - 1];
      assert rules == init + [last];
      assert PatternsTaught(rules) == PatternsTaught(init) + PatternsTaught([last]);
      LearnRule(LearnRules(s, vendor, init, now), vendor, last, now)
  }

  /** Learning one more rule is learning the rules so far, then that rule. */
  lemma LearnRulesStep(s: MemoryStore, vendor: string, rules: seq<LearnedRule>, i: nat, now: string)
    requires i < |rules|
    ensures LearnRules(s, vendor, rules[..i + 1], now)
         == LearnRule(LearnRules(s, vendor, rules[..i], now), vendor, rules[i], now)
  {
    assert rules[..i + 1][..i] == rules[..i];
  }

  /**
   * `learnFromHumanCorrection`: learn every rule, then record exactly one
   * outcome, under the invoice id.
   */
  function Learned(s: MemoryStore, hc: HumanCorrection, now: string): (s': MemoryStore)
    ensures var taught := LearnRules(s, hc.vendor, hc.learnedRules, now);
            s'.vendors == taught.vendors && s'.corrections == taught.corrections
    ensures s'.resolutions
         == s.resolutions[hc.invoiceId := RecordedResolution(Lookup(s.resolutions, hc.invoiceId), hc.invoiceId, hc.approved)]
    ensures Consistent(s) ==> Consistent(s')
  {
    Resolved(LearnRules(s, hc.vendor, hc.learnedRules, now), hc.invoiceId, hc.approved)
  }

  // ---------------------------------------------------------------------
  // The store object
  // ---------------------------------------------------------------------

  /**
   * The knowledge store object. Every mutator rewrites `store` (saving it to
   * disk afterwards is not modelled) and is specified by a store function:
   * `EnsureVendor` by `EnsuredVendor`, `UpdateVendor` by `UpdatedVendor`,
   * `ApproveVendorMapping` by `Approved`, `UpdateCorrection` by `Corrected`,
   * `UpdateResolution` by `Resolved` and `LearnFromHumanCorrection` by
   * `Learned`; `Valid` is kept by all of them.
   */
  class Memory {
    var store: MemoryStore

    ghost predicate Valid()
      reads this
    {
      Consistent(store)
    }

    /** A store with no saved copy starts empty. */
    constructor ()
      ensures store == EmptyStore && Valid()
    {
      store := EmptyStore;
    }

    method GetVendor(vendorName: string) returns (vendor: Option<VendorMemory>)
      ensures vendor.Some? <==> vendorName in store.vendors
      ensures vendor.Some? ==> vendor.value == store.vendors[vendorName]
    {
      if vendorName in store.vendors {
        vendor := Some(store.vendors[vendorName]);
      } else {
        vendor := None;
      }
    }

    method EnsureVendor(vendorName: string, now: string) returns (vendor: VendorMemory)
      modifies this
      ensures store == EnsuredVendor(old(store), vendorName, now)
      ensures old(Valid()) ==> Valid()
      ensures vendor == store.vendors[vendorName]
    {
      if vendorName !in store.vendors {
        store := store.(vendors := store.vendors[vendorName := VendorMemory(vendorName, map[], now)]);
      }
      vendor := store.vendors[vendorName];
    }

    method UpdateVendor(vendor: VendorMemory, now: string)
      modifies this
      ensures store == UpdatedVendor(old(store), vendor, now)
      ensures old(Valid()) ==> Valid()
    {
      var merged := VendorMemory(vendor.vendorName, vendor.fieldMappings, now);
      store := store.(vendors := store.vendors[vendor.vendorName := merged]);
    }

    method ApproveVendorMapping(vendorName: string, sourceField: string, targetField: string, now: string)
      modifies this
      ensures store == Approved(old(store), vendorName, sourceField, targetField, now)
      ensures old(Valid()) ==> Valid()
    {
      var vendor := EnsureVendor(vendorName, now);
      var mappings := vendor.fieldMappings;
      if targetField !in mappings {
        mappings := mappings[targetField := FieldMapping(sourceField, 0.85, ["human"], true, 1)];
      } else {
        var existing := mappings[targetField];
        mappings := mappings[targetField := existing.(approvedByHuman := true,
                                                      approvalCount := existing.approvalCount + 1,
                                                      confidence := Min(1.0, existing.confidence + 0.1))];
      }
      // The record is changed where it is stored, then written back.
      vendor := vendor.(fieldMappings := mappings);
      store := store.(vendors := store.vendors[vendorName := vendor]);
      UpdateVendor(vendor, now);
    }

    method UpdateCorrection(pattern: string, correction: string)
      modifies this
      ensures store == Corrected(old(store), pattern, correction)
      ensures old(Valid()) ==> Valid()
    {
      if pattern !in store.corrections {
        store := store.(corrections := store.corrections[pattern := CorrectionMemory(pattern, correction, 0.4, 1)]);
      } else {
        var existing := store.corrections[pattern];
        existing := existing.(count := existing.count + 1, confidence := Min(1.0, existing.confidence + 0.1));
        store := store.(corrections := store.corrections[pattern := existing]);
      }
    }

    method GetCorrection(pattern: string) returns (correction: Option<CorrectionMemory>)
      ensures correction.Some? <==> pattern in store.corrections
      ensures correction.Some? ==> correction.value == store.corrections[pattern]
    {
      if pattern in store.corrections {
        correction := Some(store.corrections[pattern]);
      } else {
        correction := None;
      }
    }

    method UpdateResolution(issue: string, approved: bool)
      modifies this
      ensures store == Resolved(old(store), issue, approved)
      ensures old(Valid()) ==> Valid()
    {
      if issue !in store.resolutions {
        var entry := ResolutionMemory(issue, if approved then 1 else 0, if approved then 0 else 1,
                                      if approved then 0.6 else 0.3);
        store := store.(resolutions := store.resolutions[issue := entry]);
      } else {
        var existing := store.resolutions[issue];
        if approved {
          existing := existing.(approvedCount := existing.approvedCount + 1);
        } else {
          existing := existing.(rejectedCount := existing.rejectedCount + 1);
        }
        existing := existing.(confidence := existing.approvedCount as real
                                            / (existing.approvedCount + existing.rejectedCount) as real);
        store := store.(resolutions := store.resolutions[issue := existing]);
      }
    }

    method GetResolution(issue: string) returns (resolution: Option<ResolutionMemory>)
      ensures resolution.Some? <==> issue in store.resolutions
      ensures resolution.Some? ==> resolution.value == store.resolutions[issue]
    {
      if issue in store.resolutions {
        resolution := Some(store.resolutions[issue]);
      } else {
        resolution := None;
      }
    }

    method LearnFromHumanCorrection(correction: HumanCorrection, now: string)
      modifies this
      ensures store == Learned(old(store), correction, now)
      ensures old(Valid()) ==> Valid()
    {
      var vendor := correction.vendor;
      var rules := correction.learnedRules;
      for i := 0 to |rules|
        invariant store == LearnRules(old(store), vendor, rules[..i], now)
      {
        var rule := rules[i];
        if Arrow in rule.rule {
          var parts := Split(rule.rule, Arrow);
          ApproveVendorMapping(vendor, Trim(parts[0]), Trim(parts[1]), now);
        } else {
          UpdateCorrection(rule.rule, rule.value);
        }
        LearnRulesStep(old(store), vendor, rules, i, now);
      }
      assert rules[..|rules|] == rules;
      UpdateResolution(correction.invoiceId, correction.approved);
    }
  }
}
