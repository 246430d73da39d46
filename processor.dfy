/**
 * The per-invoice decision pipeline: recall what the store knows about the
 * vendor, apply trusted field mappings, correction patterns and the resolution
 * risk bias to the normalized invoice, decide whether a human must review it,
 * and learn the outcome back into the store.
 */
module DecisionPipeline {
  import opened Strings
  import opened KnowledgeStore

  /** A field value of an extracted invoice; `Null` stands for both null and undefined. */
  datatype Value = Null | Number(n: real) | Text(s: string) | Structured

  type Record = map<string, Value>

  datatype Invoice = Invoice(id: string, vendor: string, properties: Record, rawText: Option<string>)

  datatype Proposal =
    | MappingFill(field: string, sourceField: string)
    | PatternDetected(pattern: string, correction: string)

  datatype Reasoning =
    | ReusedApprovedMapping
    | MissingRequiredFields(fields: set<string>)
    | LowConfidence

  datatype Decision = Decision(requiresHumanReview: bool, reasoning: Reasoning)

  datatype MemoryUpdate = ResolutionApproved(issue: string) | ResolutionRejected(issue: string)

  datatype Stage = Recall | Apply | Decide | Learn

  /** One audit-trail entry; the timestamp each entry carries is not modelled. */
  datatype AuditEntry =
    | RecallStarted(vendor: string)
    | VendorFound(mappingCount: nat)
    | NoVendorFound
    | ApplyStarted
    | MappingApplied(sourceField: string, field: string)
    | PatternApplied(pattern: string)
    | LowResolution(issue: string)
    | Decided(reasoning: Reasoning)
    | LearnStarted

  datatype ProcessedOutput = ProcessedOutput(
    invoiceId: string,
    normalizedInvoice: Record,
    proposedCorrections: seq<Proposal>,
    requiresHumanReview: bool,
    reasoning: Reasoning,
    confidenceScore: real,
    memoryUpdates: seq<MemoryUpdate>,
    auditTrail: seq<AuditEntry>)

  function StageOf(e: AuditEntry): Stage
  {
    match e
    case RecallStarted(_) => Recall
    case VendorFound(_) => Recall
    case NoVendorFound => Recall
    case Decided(_) => Decide
    case LearnStarted => Learn
    case _ => Apply
  }

  function Rank(stage: Stage): nat
  {
    match stage
    case Recall => 0
    case Apply => 1
    case Decide => 2
    case Learn => 3
  }

  /** The audit trail never goes back to an earlier stage. */
  ghost predicate StagesInOrder(trail: seq<AuditEntry>)
  {
    forall i, j :: 0 <= i < j < |trail| ==> Rank(StageOf(trail[i])) <= Rank(StageOf(trail[j]))
  }

  ghost predicate StagesAtMost(trail: seq<AuditEntry>, k: nat)
  {
    forall i :: 0 <= i < |trail| ==> Rank(StageOf(trail[i])) <= k
  }

  ghost predicate AllAt(trail: seq<AuditEntry>, stage: Stage)
  {
    forall i :: 0 <= i < |trail| ==> StageOf(trail[i]) == stage
  }

  lemma AllAtConcat(a: seq<AuditEntry>, b: seq<AuditEntry>, stage: Stage)
    requires AllAt(a, stage) && AllAt(b, stage)
    ensures AllAt(a + b, stage)
  {
    forall i | 0 <= i < |a + b| ensures StageOf((a + b)[i]) == stage {
      if i >= |a| { assert (a + b)[i] == b[i - |a|]; }
    }
  }

  /** Appending a block of one later-or-equal stage keeps the trail in order. */
  lemma {:induction false} AppendStageBlock(trail: seq<AuditEntry>, block: seq<AuditEntry>, stage: Stage)
    requires StagesInOrder(trail) && StagesAtMost(trail, Rank(stage)) && AllAt(block, stage)
    ensures StagesInOrder(trail + block) && StagesAtMost(trail + block, Rank(stage))
  {
    var t := trail + block;
    forall i, j | 0 <= i < j < |t| ensures Rank(StageOf(t[i])) <= Rank(StageOf(t[j])) {
      if j >= |trail| {
        assert t[j] == block[j - |trail|];
        if i < |trail| {
          assert t[i] == trail[i];
        } else {
          assert t[i] == block[i - |trail|];
        }
      } else {
        assert t[i] == trail[i] && t[j] == trail[j];
      }
    }
    forall i | 0 <= i < |t| ensures Rank(StageOf(t[i])) <= Rank(stage) {
      if i < |trail| { assert t[i] == trail[i]; } else { assert t[i] == block[i - |trail|]; }
    }
  }

  /**
   * The trail the pipeline writes: three recall/apply headers, the entries of
   * the three apply stages, the decision and the learn marker. It never goes
   * back to an earlier stage, starts with the recall and ends with the learn step.
   */
  lemma PipelineTrailInOrder(vendor: string, found: AuditEntry, applied: seq<AuditEntry>, reasoning: Reasoning)
    requires StageOf(found) == Recall && AllAt(applied, Apply)
    ensures var t := [RecallStarted(vendor)] + [found] + [ApplyStarted] + applied
                     + [Decided(reasoning)] + [LearnStarted];
            && StagesInOrder(t)
            && |t| >= 5 && t[0] == RecallStarted(vendor) && t[|t| - 1] == LearnStarted
  {
    var head := [RecallStarted(vendor)] + [found] + [ApplyStarted];
    assert StagesInOrder(head) && StagesAtMost(head, Rank(Apply));
    AppendStageBlock(head, applied, Apply);
    AppendStageBlock(head + applied, [Decided(reasoning)], Decide);
    AppendStageBlock(head + applied + [Decided(reasoning)], [LearnStarted], Learn);
  }

  // ---------------------------------------------------------------------
  // Normalization and the vendor-mapping stage
  // ---------------------------------------------------------------------

  /** `record[field] == null`: the field is absent or holds null/undefined. */
  predicate Nullish(record: Record, field: string)
  {
    field !in record || record[field] == Null
  }

  /**
   * The working record: the invoice id and vendor, then every extracted
   * property, a property of the same name taking precedence.
   */
  function Normalize(invoice: Invoice): (r: Record)
    ensures r.Keys == invoice.properties.Keys + {"invoiceId", "vendor"}
    ensures forall k :: k in invoice.properties ==> r[k] == invoice.properties[k]
    ensures "invoiceId" !in invoice.properties ==> r["invoiceId"] == Text(invoice.id)
    ensures "vendor" !in invoice.properties ==> r["vendor"] == Text(invoice.vendor)
  {
    map["invoiceId" := Text(invoice.id), "vendor" := Text(invoice.vendor)] + invoice.properties
  }

  /** The extraction confidence if the invoice carries one, else the prior 0.5. */
  function StartConfidence(invoice: Invoice): (c: real)
    ensures "confidence" in invoice.properties && invoice.properties["confidence"].Number? ==>
              c == invoice.properties["confidence"].n
    ensures "confidence" !in invoice.properties || invoice.properties["confidence"] == Null ==> c == 0.5
  {
    if "confidence" in invoice.properties && invoice.properties["confidence"].Number?
    then invoice.properties["confidence"].n
    else 0.5
  }

  /** A mapping is applied to a field only if a human approved it and the field is empty. */
  predicate Trusted(record: Record, mappings: map<string, FieldMapping>, field: string)
  {
    field in mappings && mappings[field].approvedByHuman && Nullish(record, field)
  }

  function TrustedFills(record: Record, mappings: map<string, FieldMapping>): set<string>
  {
    set f | f in mappings && Trusted(record, mappings, f)
  }

  function Derived(sourceField: string): Value
  {
    Text("Derived from " + sourceField)
  }

  /**
   * The record once every trusted mapping is applied: each trusted field gets
   * the placeholder naming its source field, every other field is untouched,
   * and no field is added that is not a trusted fill.
   */
  function Filled(record: Record, mappings: map<string, FieldMapping>): (r: Record)
    ensures r.Keys == record.Keys + TrustedFills(record, mappings)
    ensures forall f :: Trusted(record, mappings, f) ==> r[f] == Derived(mappings[f].sourceField)
    ensures forall f :: f in record && !Trusted(record, mappings, f) ==> r[f] == record[f]
  {
    map f | f in record.Keys + TrustedFills(record, mappings) ::
      if Trusted(record, mappings, f) then Derived(mappings[f].sourceField) else record[f]
  }

  /** Filling other fields never fills `field`. */
  lemma FilledElsewhere(record: Record, done: map<string, FieldMapping>, field: string)
    requires field !in done
    ensures Nullish(Filled(record, done), field) == Nullish(record, field)
  {
    assert !Trusted(record, done, field);
  }

  /** Visiting one more mapping adds its field to the fills exactly when it is trusted. */
  lemma TrustedFillsStep(record: Record, done: map<string, FieldMapping>, field: string, mapping: FieldMapping)
    requires field !in done
    ensures TrustedFills(record, done[field := mapping])
         == TrustedFills(record, done)
            + (if mapping.approvedByHuman && Nullish(record, field) then {field} else {})
  {
  }

  /** Visiting one more mapping changes the filled record at that field at most. */
  lemma FilledStep(record: Record, done: map<string, FieldMapping>, field: string, mapping: FieldMapping)
    requires field !in done
    ensures Filled(record, done[field := mapping])
         == if mapping.approvedByHuman && Nullish(record, field)
            then Filled(record, done)[field := Derived(mapping.sourceField)]
            else Filled(record, done)
  {
    var done' := done[field := mapping];
    var after, before := Filled(record, done'), Filled(record, done);
    TrustedFillsStep(record, done, field, mapping);
    if mapping.approvedByHuman && Nullish(record, field) {
      var expected := before[field := Derived(mapping.sourceField)];
      assert after.Keys == expected.Keys;
      forall f | f in after ensures after[f] == expected[f] {
        if f != field {
          assert Trusted(record, done', f) == Trusted(record, done, f);
        }
      }
    } else {
      assert after.Keys == before.Keys;
      forall f | f in after ensures after[f] == before[f] {
        assert Trusted(record, done', f) == Trusted(record, done, f);
      }
    }
  }

  /** `order` lists every element of `items` exactly once, in some order. */
  ghost predicate Lists(order: seq<string>, items: set<string>)
  {
    |order| == |items| && forall x :: x in order <==> x in items
  }

  /**
   * The inductive form of `Lists`, peeling off the last element; the loops
   * keep it as an invariant and `EnumeratesMeaning` turns it into `Lists`.
   */
  ghost predicate Enumerates<T>(order: seq<T>, items: set<T>)
    decreases |order|
  {
    if order == [] then items == {}
    else
      var last := order[|order| - 1];
      last in items && Enumerates(order[..|order| - 1], items - {last})
  }

  lemma {:induction false} EnumeratesMeaning<T>(order: seq<T>, items: set<T>)
    requires Enumerates(order, items)
    ensures |order| == |items|
    ensures forall x :: x in order <==> x in items
    decreases |order|
  {
    if order != [] {
      var init, last := order[..|order| - 1], order[|order| - 1];
      EnumeratesMeaning(init, items - {last});
      assert order == init + [last];
    }
  }

  /** The proposals the vendor-mapping stage makes when it fills the fields of `order`, in order. */
  function FillProposals(mappings: map<string, FieldMapping>, order: seq<string>): (ps: seq<Proposal>)
    requires forall f :: f in order ==> f in mappings
    ensures |ps| == |order|
  {
    if order == [] then []
    else
      var last := order[|order| - 1];
      FillProposals(mappings, order[..|order| - 1]) + [MappingFill(last, mappings[last].sourceField)]
  }

  /** The audit entries of those fills. */
  function FillTrail(mappings: map<string, FieldMapping>, order: seq<string>): (t: seq<AuditEntry>)
    requires forall f :: f in order ==> f in mappings
    ensures |t| == |order| && AllAt(t, Apply)
  {
    if order == [] then []
    else
      var last := order[|order| - 1];
      FillTrail(mappings, order[..|order| - 1]) + [MappingApplied(mappings[last].sourceField, last)]
  }

  /**
   * Where the vendor-mapping stage's record stands once it has visited the
   * mappings in `done`: it is filled for those, and `fills` are the fields filled.
   */
  ghost predicate FillProgress(record: Record, mappings: map<string, FieldMapping>,
                               done: map<string, FieldMapping>, filled: Record, fills: set<string>)
  {
    && (forall f :: f in done ==> f in mappings && done[f] == mappings[f])
    && filled == Filled(record, done)
    && fills == TrustedFills(record, done)
  }

  /** Visiting one more mapping fills its field exactly when the mapping is trusted. */
  lemma FillProgressStep(record: Record, mappings: map<string, FieldMapping>,
                         done: map<string, FieldMapping>, filled: Record, fills: set<string>, field: string)
    requires FillProgress(record, mappings, done, filled, fills)
    requires field in mappings && field !in done
    ensures var mapping := mappings[field];
            var take := Nullish(filled, field) && mapping.approvedByHuman;
            && (take <==> field !in fills && Trusted(record, mappings, field))
            && FillProgress(record, mappings, done[field := mapping],
                            if take then filled[field := Derived(mapping.sourceField)] else filled,
                            if take then fills + {field} else fills)
  {
    FilledElsewhere(record, done, field);
    TrustedFillsStep(record, done, field, mappings[field]);
    FilledStep(record, done, field, mappings[field]);
  }

  /**
   * The fields filled so far, in the order they were filled, each with its
   * proposal and audit entry.
   */
  ghost predicate FillLog(mappings: map<string, FieldMapping>, fills: set<string>, order: seq<string>,
                          proposals: seq<Proposal>, trail: seq<AuditEntry>)
  {
    && Enumerates(order, fills)
    && fills <= mappings.Keys
    && (forall f :: f in order ==> f in mappings)
    && proposals == FillProposals(mappings, order)
    && trail == FillTrail(mappings, order)
  }

  /** Filling a new field appends it, its proposal and its audit entry. */
  lemma {:induction false} FillLogAppend(mappings: map<string, FieldMapping>, fills: set<string>, order: seq<string>,
                                         proposals: seq<Proposal>, trail: seq<AuditEntry>, field: string)
    requires FillLog(mappings, fills, order, proposals, trail)
    requires field in mappings && field !in fills
    ensures var mapping := mappings[field];
            FillLog(mappings, fills + {field}, order + [field],
                    proposals + [MappingFill(field, mapping.sourceField)],
                    trail + [MappingApplied(mapping.sourceField, field)])
  {
    var order' := order + [field];
    assert order'[..|order'| - 1] == order;
    assert (fills + {field}) - {field} == fills;
  }

  /** Moving one key from the unvisited to the visited keys extends the enumeration of the visited. */
  lemma VisitKey<K>(keys: set<K>, todo: set<K>, visited: seq<K>, k: K)
    requires todo <= keys && Enumerates(visited, keys - todo) && k in todo
    ensures todo - {k} <= keys && Enumerates(visited + [k], keys - (todo - {k}))
  {
    var v := visited + [k];
    assert v[..|v| - 1] == visited;
    assert (keys - (todo - {k})) - {k} == keys - todo;
  }

  /** `m` cut down to the keys in `keys`. */
  function Restrict<K, V>(m: map<K, V>, keys: set<K>): (r: map<K, V>)
    ensures r.Keys == m.Keys * keys
    ensures forall k :: k in r ==> r[k] == m[k]
  {
    map k | k in m && k in keys :: m[k]
  }

  lemma RestrictOneMore<K, V>(m: map<K, V>, keys: set<K>, k: K)
    requires k in m && k !in keys
    ensures Restrict(m, keys + {k}) == Restrict(m, keys)[k := m[k]]
  {
    assert Restrict(m, keys + {k}).Keys == Restrict(m, keys)[k := m[k]].Keys;
  }

  /** What the vendor-mapping stage has built so far. */
  datatype FillState = FillState(
    filled: Record,
    proposals: seq<Proposal>,
    trail: seq<AuditEntry>,
    score: real,
    applied: bool,
    order: seq<string>)

  /** The stage's state after it visits `field` in state `st`. */
  ghost function VisitMapping(mappings: map<string, FieldMapping>, st: FillState, field: string): FillState
  {
    if field in mappings && Nullish(st.filled, field) && mappings[field].approvedByHuman then
      var source := mappings[field].sourceField;
      FillState(st.filled[field := Derived(source)],
                st.proposals + [MappingFill(field, source)],
                st.trail + [MappingApplied(source, field)],
                Max(st.score, 0.85), true, st.order + [field])
    else st
  }

  /** The stage's state after visiting the fields of `visited`, in that order. */
  ghost function VisitMappings(record: Record, mappings: map<string, FieldMapping>, score: real,
                               visited: seq<string>): FillState
    decreases |visited|
  {
    if visited == [] then FillState(record, [], [], score, false, [])
    else VisitMapping(mappings, VisitMappings(record, mappings, score, visited[..|visited| - 1]),
                      visited[|visited| - 1])
  }

  /**
   * `st` is what the stage should have built once it has visited the fields of
   * `keys`: the record filled for their mappings, each trusted fill listed once
   * with its proposal and audit entry, and the score raised exactly when it filled.
   */
  ghost predicate FillMeaning(record: Record, mappings: map<string, FieldMapping>, score: real,
                              st: FillState, keys: set<string>)
  {
    var done := Restrict(mappings, keys);
    && FillProgress(record, mappings, done, st.filled, TrustedFills(record, done))
    && FillLog(mappings, TrustedFills(record, done), st.order, st.proposals, st.trail)
    && (st.applied <==> TrustedFills(record, done) != {})
    && st.score == if st.applied then Max(score, 0.85) else score
  }

  /** Visiting one more field keeps the state meaning what it should. */
  lemma VisitMappingStep(record: Record, mappings: map<string, FieldMapping>, score: real,
                         st: FillState, rest: set<string>, field: string)
    requires FillMeaning(record, mappings, score, st, rest)
    requires field in mappings && field !in rest
    ensures FillMeaning(record, mappings, score, VisitMapping(mappings, st, field), rest + {field})
  {
    RestrictOneMore(mappings, rest, field);
    var before := Restrict(mappings, rest);
    FillProgressStep(record, mappings, before, st.filled, TrustedFills(record, before), field);
    if Nullish(st.filled, field) && mappings[field].approvedByHuman {
      FillLogAppend(mappings, TrustedFills(record, before), st.order, st.proposals, st.trail, field);
    }
  }

  /**
   * Visiting the fields of `keys` once each, in any order, fills the record
   * for the mappings of those fields, lists each trusted fill once with its
   * proposal and audit entry, and raises the score exactly when it fills.
   */
  lemma {:induction false} VisitMappingsMeaning(record: Record, mappings: map<string, FieldMapping>, score: real,
                                                visited: seq<string>, keys: set<string>)
    requires Enumerates(visited, keys) && keys <= mappings.Keys
    ensures FillMeaning(record, mappings, score, VisitMappings(record, mappings, score, visited), keys)
    decreases |visited|
  {
    if visited == [] {
      var done := Restrict(mappings, keys);
      assert done == map[];
      assert TrustedFills(record, done) == {};
      assert Filled(record, done) == record;
    } else {
      var init, field := visited[..|visited| - 1], visited[|visited| - 1];
      var rest := keys - {field};
      VisitMappingsMeaning(record, mappings, score, init, rest);
      VisitMappingStep(record, mappings, score, VisitMappings(record, mappings, score, init), rest, field);
      assert rest + {field} == keys;
    }
  }

  /**
   * The vendor-mapping stage. Visits the mappings in some order (`order` lists
   * the fields it filled, as it filled them); the result does not depend on
   * that order: the record becomes `Filled`, the score is raised to at least
   * 0.85 exactly when something was filled, and each fill yields one proposal
   * and one audit entry.
   */
  method ApplyVendorMappings(record: Record, mappings: map<string, FieldMapping>, score: real)
    returns (filled: Record, proposals: seq<Proposal>, trail: seq<AuditEntry>, score': real,
             applied: bool, ghost order: seq<string>)
    ensures filled == Filled(record, mappings)
    ensures applied <==> TrustedFills(record, mappings) != {}
    ensures score' == if applied then Max(score, 0.85) else score
    ensures |order| == |TrustedFills(record, mappings)|
    ensures forall f :: f in order <==> f in TrustedFills(record, mappings)
    ensures proposals == FillProposals(mappings, order)
    ensures trail == FillTrail(mappings, order)
  {
    filled, proposals, trail, score', applied, order := record, [], [], score, false, [];
    var todo := mappings.Keys;
    ghost var visited: seq<string> := [];
    while todo != {}
      invariant todo <= mappings.Keys
      invariant Enumerates(visited, mappings.Keys - todo)
      invariant VisitMappings(record, mappings, score, visited)
             == FillState(filled, proposals, trail, score', applied, order)
      decreases todo
    {
      var field :| field in todo;
      var mapping := mappings[field];
      if Nullish(filled, field) && mapping.approvedByHuman {
        filled := filled[field := Derived(mapping.sourceField)];
        proposals := proposals + [MappingFill(field, mapping.sourceField)];
        score' := Max(score', 0.85);
        applied := true;
        trail := trail + [MappingApplied(mapping.sourceField, field)];
        order := order + [field];
      }
      VisitKey(mappings.Keys, todo, visited, field);
      visited := visited + [field];
      todo := todo - {field};
    }
    assert mappings.Keys - todo == mappings.Keys;
    VisitMappingsMeaning(record, mappings, score, visited, mappings.Keys);
    assert Restrict(mappings, mappings.Keys) == mappings;
    EnumeratesMeaning(order, TrustedFills(record, mappings));
  }

  // ---------------------------------------------------------------------
  // The correction-pattern and resolution-bias stages
  // ---------------------------------------------------------------------

  /** A stored correction fires when the invoice has raw text containing its pattern and it is trusted (>= 0.6). */
  predicate Fires(rawText: Option<string>, corrections: map<string, CorrectionMemory>, key: string)
  {
    && rawText.Some? && rawText.value != ""
    && key in corrections
    && Includes(rawText.value, corrections[key].pattern)
    && corrections[key].confidence >= 0.6
  }

  /** The keys among `keys` whose stored correction fires. */
  function FiringAmong(rawText: Option<string>, corrections: map<string, CorrectionMemory>, keys: set<string>)
    : set<string>
  {
    set key | key in keys && Fires(rawText, corrections, key)
  }

  function FiringCorrections(rawText: Option<string>, corrections: map<string, CorrectionMemory>): set<string>
  {
    FiringAmong(rawText, corrections, corrections.Keys)
  }

  /**
   * The score after `k` nudges of +0.05, each capped at 1: it never falls, and
   * stays within [0, 1] when it started there.
   */
  function Raised(score: real, k: nat): (r: real)
    ensures k == 0 ==> r == score
    ensures score <= 1.0 ==> score <= r <= 1.0
    ensures r == 1.0 || r == score + 0.05 * k as real
  {
    if k == 0 then score else Min(1.0, score + 0.05 * k as real)
  }

  /** `k` nudges then one more is `k + 1` nudges. */
  lemma RaisedOnceMore(score: real, k: nat)
    ensures Min(1.0, Raised(score, k) + 0.05) == Raised(score, k + 1)
  {
  }

  /**
   * The score after `k` deductions of 0.05, each floored at 0: it never rises,
   * and stays within [0, 1] when it started there.
   */
  function Lowered(score: real, k: nat): (r: real)
    ensures k == 0 ==> r == score
    ensures score >= 0.0 ==> 0.0 <= r <= score
    ensures r == 0.0 || r == score - 0.05 * k as real
  {
    if k == 0 then score else Max(0.0, score - 0.05 * k as real)
  }

  /** `k` deductions then one more is `k + 1` deductions. */
  lemma LoweredOnceMore(score: real, k: nat)
    ensures Max(0.0, Lowered(score, k) - 0.05) == Lowered(score, k + 1)
  {
  }

  /** Listing one more new item extends an enumeration. */
  lemma EnumeratesAppend<T>(order: seq<T>, items: set<T>, x: T)
    requires Enumerates(order, items) && x !in items
    ensures Enumerates(order + [x], items + {x})
  {
    var o := order + [x];
    assert o[..|o| - 1] == order;
    assert (items + {x}) - {x} == items;
  }

  /** The proposals of the corrections of `order` that fired, in order. */
  function PatternProposals(corrections: map<string, CorrectionMemory>, order: seq<string>): (ps: seq<Proposal>)
    requires forall k :: k in order ==> k in corrections
    ensures |ps| == |order|
  {
    if order == [] then []
    else
      var c := corrections[order[|order| - 1]];
      PatternProposals(corrections, order[..|order| - 1]) + [PatternDetected(c.pattern, c.correction)]
  }

  /** Their audit entries. */
  function PatternTrail(corrections: map<string, CorrectionMemory>, order: seq<string>): (t: seq<AuditEntry>)
    requires forall k :: k in order ==> k in corrections
    ensures |t| == |order| && AllAt(t, Apply)
  {
    if order == [] then []
    else PatternTrail(corrections, order[..|order| - 1]) + [PatternApplied(corrections[order[|order| - 1]].pattern)]
  }

  /** What the correction-pattern stage has built so far. */
  datatype PatternState = PatternState(proposals: seq<Proposal>, trail: seq<AuditEntry>, score: real, order: seq<string>)

  /** The stage's state after visiting the corrections of `visited`, in that order. */
  ghost function VisitCorrections(rawText: Option<string>, corrections: map<string, CorrectionMemory>,
                                  score: real, visited: seq<string>): PatternState
    decreases |visited|
  {
    if visited == [] then PatternState([], [], score, [])
    else
      var st := VisitCorrections(rawText, corrections, score, visited[..|visited| - 1]);
      var key := visited[|visited| - 1];
      if Fires(rawText, corrections, key) then
        var c := corrections[key];
        PatternState(st.proposals + [PatternDetected(c.pattern, c.correction)],
                     st.trail + [PatternApplied(c.pattern)],
                     Min(1.0, st.score + 0.05), st.order + [key])
      else st
  }

  /**
   * Visiting the corrections of `keys` once each, in any order, lists each
   * firing one once, with its proposal and audit entry, and nudges the score
   * once per firing correction.
   */
  lemma {:induction false} VisitCorrectionsMeaning(rawText: Option<string>, corrections: map<string, CorrectionMemory>,
                                                   score: real, visited: seq<string>, keys: set<string>)
    requires Enumerates(visited, keys) && keys <= corrections.Keys
    ensures var st := VisitCorrections(rawText, corrections, score, visited);
            && Enumerates(st.order, FiringAmong(rawText, corrections, keys))
            && (forall k :: k in st.order ==> k in corrections)
            && st.proposals == PatternProposals(corrections, st.order)
            && st.trail == PatternTrail(corrections, st.order)
            && st.score == Raised(score, |FiringAmong(rawText, corrections, keys)|)
    decreases |visited|
  {
    if visited == [] {
      assert FiringAmong(rawText, corrections, keys) == {};
    } else {
      var init, key := visited[..|visited| - 1], visited[|visited| - 1];
      var rest := keys - {key};
      VisitCorrectionsMeaning(rawText, corrections, score, init, rest);
      var st := VisitCorrections(rawText, corrections, score, init);
      var before := FiringAmong(rawText, corrections, rest);
      assert key !in before;
      if Fires(rawText, corrections, key) {
        assert FiringAmong(rawText, corrections, keys) == before + {key};
        EnumeratesAppend(st.order, before, key);
        RaisedOnceMore(score, |before|);
        var order' := st.order + [key];
        assert order'[..|order'| - 1] == st.order;
      } else {
        assert FiringAmong(rawText, corrections, keys) == before;
      }
    }
  }

  /**
   * The correction-pattern stage: skipped without raw text; otherwise every
   * firing correction yields one proposal and one audit entry and nudges the
   * score by +0.05 (capped at 1). `order` lists the firing corrections as they
   * were visited.
   */
  method ApplyCorrectionPatterns(rawText: Option<string>, corrections: map<string, CorrectionMemory>, score: real)
    returns (proposals: seq<Proposal>, trail: seq<AuditEntry>, score': real, ghost order: seq<string>)
    ensures rawText.None? || rawText.value == "" ==> proposals == [] && trail == [] && score' == score
    ensures score' == Raised(score, |FiringCorrections(rawText, corrections)|)
    ensures |order| == |FiringCorrections(rawText, corrections)|
    ensures forall k :: k in order <==> k in FiringCorrections(rawText, corrections)
    ensures forall k :: k in order ==> k in corrections
    ensures proposals == PatternProposals(corrections, order)
    ensures trail == PatternTrail(corrections, order)
  {
    proposals, trail, score', order := [], [], score, [];
    if rawText.Some? && rawText.value != "" {
      var text := rawText.value;
      var todo := corrections.Keys;
      ghost var visited: seq<string> := [];
      while todo != {}
        invariant todo <= corrections.Keys
        invariant Enumerates(visited, corrections.Keys - todo)
        invariant VisitCorrections(rawText, corrections, score, visited) == PatternState(proposals, trail, score', order)
        decreases todo
      {
        var key :| key in todo;
        var correction := corrections[key];
        if Includes(text, correction.pattern) && correction.confidence >= 0.6 {
          proposals := proposals + [PatternDetected(correction.pattern, correction.correction)];
          score' := Min(1.0, score' + 0.05);
          trail := trail + [PatternApplied(correction.pattern)];
          order := order + [key];
        }
        VisitKey(corrections.Keys, todo, visited, key);
        visited := visited + [key];
        todo := todo - {key};
      }
      assert corrections.Keys - todo == corrections.Keys;
      VisitCorrectionsMeaning(rawText, corrections, score, visited, corrections.Keys);
      EnumeratesMeaning(order, FiringCorrections(rawText, corrections));
    } else {
      assert FiringCorrections(rawText, corrections) == {};
    }
  }

  /** The stored resolutions among `keys` whose confidence is below 0.4. */
  function LowAmong(resolutions: map<string, ResolutionMemory>, keys: set<string>): set<string>
  {
    set i | i in keys && i in resolutions && resolutions[i].confidence < 0.4
  }

  function LowResolutions(resolutions: map<string, ResolutionMemory>): set<string>
  {
    LowAmong(resolutions, resolutions.Keys)
  }

  /** The audit entries of the low resolutions of `order`, in order. */
  function RiskTrail(resolutions: map<string, ResolutionMemory>, order: seq<string>): (t: seq<AuditEntry>)
    requires forall i :: i in order ==> i in resolutions
    ensures |t| == |order| && AllAt(t, Apply)
  {
    if order == [] then []
    else RiskTrail(resolutions, order[..|order| - 1]) + [LowResolution(resolutions[order[|order| - 1]].issue)]
  }

  /** What the resolution-bias stage has built so far. */
  datatype BiasState = BiasState(trail: seq<AuditEntry>, score: real, order: seq<string>)

  /** The stage's state after visiting the resolutions of `visited`, in that order. */
  ghost function VisitResolutions(resolutions: map<string, ResolutionMemory>, score: real, visited: seq<string>)
    : BiasState
    decreases |visited|
  {
    if visited == [] then BiasState([], score, [])
    else
      var st := VisitResolutions(resolutions, score, visited[..|visited| - 1]);
      var key := visited[|visited| - 1];
      if key in resolutions && resolutions[key].confidence < 0.4 then
        BiasState(st.trail + [LowResolution(resolutions[key].issue)], Max(0.0, st.score - 0.05), st.order + [key])
      else st
  }

  /**
   * Visiting the resolutions of `keys` once each, in any order, lists each low
   * one once, with its audit entry, and lowers the score once per low resolution.
   */
  lemma {:induction false} VisitResolutionsMeaning(resolutions: map<string, ResolutionMemory>, score: real,
                                                   visited: seq<string>, keys: set<string>)
    requires Enumerates(visited, keys)
    ensures var st := VisitResolutions(resolutions, score, visited);
            && Enumerates(st.order, LowAmong(resolutions, keys))
            && (forall i :: i in st.order ==> i in resolutions)
            && st.trail == RiskTrail(resolutions, st.order)
            && st.score == Lowered(score, |LowAmong(resolutions, keys)|)
    decreases |visited|
  {
    if visited == [] {
      assert LowAmong(resolutions, keys) == {};
    } else {
      var init, key := visited[..|visited| - 1], visited[|visited| - 1];
      var rest := keys - {key};
      VisitResolutionsMeaning(resolutions, score, init, rest);
      var st := VisitResolutions(resolutions, score, init);
      var before := LowAmong(resolutions, rest);
      assert key !in before;
      if key in resolutions && resolutions[key].confidence < 0.4 {
        assert LowAmong(resolutions, keys) == before + {key};
        EnumeratesAppend(st.order, before, key);
        LoweredOnceMore(score, |before|);
        var order' := st.order + [key];
        assert order'[..|order'| - 1] == st.order;
      } else {
        assert LowAmong(resolutions, keys) == before;
      }
    }
  }

  /**
   * The resolution risk bias: every stored resolution below 0.4, whatever
   * invoice it came from, lowers the score by 0.05 (floored at 0) and yields
   * one audit entry; the others have no effect.
   */
  method ApplyResolutionBias(resolutions: map<string, ResolutionMemory>, score: real)
    returns (trail: seq<AuditEntry>, score': real, ghost order: seq<string>)
    ensures score' == Lowered(score, |LowResolutions(resolutions)|)
    ensures |order| == |LowResolutions(resolutions)|
    ensures forall i :: i in order <==> i in LowResolutions(resolutions)
    ensures forall i :: i in order ==> i in resolutions
    ensures trail == RiskTrail(resolutions, order)
  {
    trail, score', order := [], score, [];
    var todo := resolutions.Keys;
    ghost var visited: seq<string> := [];
    while todo != {}
      invariant todo <= resolutions.Keys
      invariant Enumerates(visited, resolutions.Keys - todo)
      invariant VisitResolutions(resolutions, score, visited) == BiasState(trail, score', order)
      decreases todo
    {
      var key :| key in todo;
      var resolution := resolutions[key];
      if resolution.confidence < 0.4 {
        score' := Max(0.0, score' - 0.05);
        trail := trail + [LowResolution(resolution.issue)];
        order := order + [key];
      }
      VisitKey(resolutions.Keys, todo, visited, key);
      visited := visited + [key];
      todo := todo - {key};
    }
    assert resolutions.Keys - todo == resolutions.Keys;
    VisitResolutionsMeaning(resolutions, score, visited, resolutions.Keys);
    EnumeratesMeaning(order, LowResolutions(resolutions));
  }

  // ---------------------------------------------------------------------
  // Decide and learn
  // ---------------------------------------------------------------------

  /** The fields of the record that are present but null or undefined. */
  function MissingFields(record: Record): (missing: set<string>)
    ensures forall k :: k in missing <==> k in record && record[k] == Null
    ensures missing <= record.Keys
    ensures missing == {} <==> forall k :: k in record ==> record[k] != Null
  {
    var missing := set k | k in record && record[k] == Null;
    assert forall k :: k in record && record[k] == Null ==> k in missing;
    missing
  }

  /** A trusted fill removes its field from the missing ones and touches no other. */
  lemma MissingAfterFill(record: Record, mappings: map<string, FieldMapping>)
    ensures MissingFields(Filled(record, mappings)) == MissingFields(record) - TrustedFills(record, mappings)
  {
    var r := Filled(record, mappings);
    forall k | k in MissingFields(r) ensures k in MissingFields(record) - TrustedFills(record, mappings) {
      assert !Trusted(record, mappings, k);
    }
  }

  /**
   * The review decision: a trusted fill alone skips review, whatever is still
   * missing; otherwise review is required, giving the missing fields if there
   * are any and low confidence if there are none.
   */
  function ReviewDecision(appliedFromTrustedMemory: bool, missing: set<string>): (d: Decision)
    ensures !d.requiresHumanReview <==> appliedFromTrustedMemory
    ensures d.reasoning == ReusedApprovedMapping <==> appliedFromTrustedMemory
    ensures d.reasoning.MissingRequiredFields? <==> !appliedFromTrustedMemory && missing != {}
    ensures d.reasoning.MissingRequiredFields? ==> d.reasoning.fields == missing
    ensures d.reasoning == LowConfidence <==> !appliedFromTrustedMemory && missing == {}
  {
    if appliedFromTrustedMemory then Decision(false, ReusedApprovedMapping)
    else if missing != {} then Decision(true, MissingRequiredFields(missing))
    else Decision(true, LowConfidence)
  }

  /**
   * What the learn step records for `issue`: an approval when review was not
   * required and the score is above 0.75, a rejection when the score is below
   * 0.4; never both.
   */
  function LearnOutcomes(requiresHumanReview: bool, score: real, issue: string): (u: seq<MemoryUpdate>)
    ensures |u| <= 1
    ensures ResolutionApproved(issue) in u <==> !requiresHumanReview && score > 0.75
    ensures ResolutionRejected(issue) in u <==> score < 0.4
    ensures forall x :: x in u ==> x.issue == issue
  {
    (if !requiresHumanReview && score > 0.75 then [ResolutionApproved(issue)] else [])
    + (if score < 0.4 then [ResolutionRejected(issue)] else [])
  }

  /**
   * The store after the learn step's writes, in order: only resolutions
   * change, and only at the issues written.
   */
  function Recorded(s: MemoryStore, updates: seq<MemoryUpdate>): (s': MemoryStore)
    ensures updates == [] ==> s' == s
    ensures forall x :: x in updates ==> x.issue in s'.resolutions
    ensures s'.vendors == s.vendors && s'.corrections == s.corrections
    ensures forall i :: i in s.resolutions && (forall x :: x in updates ==> x.issue != i) ==>
              i in s'.resolutions && s'.resolutions[i] == s.resolutions[i]
    ensures Consistent(s) ==> Consistent(s')
    decreases |updates|
  {
    if updates == [] then s
    else
      var init := updates[..|updates| - 1];
      var last := updates[|updates| - 1];
      assert updates == init + [last];
      var before := Recorded(s, init);
      var after := Resolved(before, last.issue, last.ResolutionApproved?);
      assert after.resolutions.Keys == before.resolutions.Keys + {last.issue};
      after
  }

  /** One more write is one more `Resolved` on top of the earlier ones. */
  lemma RecordedSnoc(s: MemoryStore, updates: seq<MemoryUpdate>, u: MemoryUpdate)
    ensures Recorded(s, updates + [u]) == Resolved(Recorded(s, updates), u.issue, u.ResolutionApproved?)
  {
    assert (updates + [u])[..|updates|] == updates;
  }

  /** A whole number of hundredths is already rounded. */
  lemma HundredthsRounded(k: int)
    ensures ToFixed2(Hundredths(k)) == Hundredths(k)
  {
    var h := Hundredths(k);
    assert h * 100.0 == k as real;
    if h < 0.0 {
      assert ((-h) * 100.0 + 0.5).Floor == -k;
    } else {
      assert (h * 100.0 + 0.5).Floor == k;
    }
  }

  /** Rounding an already rounded score changes nothing. */
  lemma ToFixed2Idempotent(x: real)
    ensures ToFixed2(ToFixed2(x)) == ToFixed2(x)
  {
    var k :| ToFixed2(x) == Hundredths(k);
    HundredthsRounded(k);
  }

  /** `k` hundredths. */
  function Hundredths(k: int): real
  {
    k as real / 100.0
  }

  /**
   * `Number(x.toFixed(2))`: a whole number of hundredths within half a
   * hundredth of `x`, halves rounded away from zero.
   */
  function ToFixed2(x: real): (r: real)
    ensures exists k: int :: r == Hundredths(k)
    ensures -0.005 <= r - x <= 0.005
    ensures 0.0 <= x <= 1.0 ==> 0.0 <= r <= 1.0
  {
    var k := if x < 0.0 then -((-x) * 100.0 + 0.5).Floor else (x * 100.0 + 0.5).Floor;
    Hundredths(k)
  }

  // ---------------------------------------------------------------------
  // The whole pipeline
  // ---------------------------------------------------------------------

  /** Whether the vendor-mapping stage fills anything for this invoice from this store. */
  predicate FillsFromMemory(s: MemoryStore, invoice: Invoice)
  {
    TrustedFills(Normalize(invoice), MappingsOf(s, invoice.vendor)) != {}
  }

  /** The running score, starting from `start`, once all three apply stages have run against store `s`. */
  function StagedScore(s: MemoryStore, invoice: Invoice, start: real): real
  {
    var afterMappings := if FillsFromMemory(s, invoice) then Max(start, 0.85) else start;
    var afterPatterns := Raised(afterMappings, |FiringCorrections(invoice.rawText, s.corrections)|);
    Lowered(afterPatterns, |LowResolutions(s.resolutions)|)
  }

  /** The score the pipeline reports (before rounding) for an invoice against store `s`. */
  function FinalScore(s: MemoryStore, invoice: Invoice): real
  {
    StagedScore(s, invoice, StartConfidence(invoice))
  }

  /** Confidence stays in [0, 1] through every stage if it starts there. */
  lemma ScoreStaysInUnitInterval(s: MemoryStore, invoice: Invoice)
    requires 0.0 <= StartConfidence(invoice) <= 1.0
    ensures 0.0 <= FinalScore(s, invoice) <= 1.0
    ensures 0.0 <= ToFixed2(FinalScore(s, invoice)) <= 1.0
  {
  }

  /**
   * An approved mapping of a known vendor for a field the invoice leaves empty
   * is applied: the field gets the derived placeholder and review is skipped.
   */
  lemma ApprovedMappingSkipsReview(s: MemoryStore, invoice: Invoice, field: string)
    requires invoice.vendor in s.vendors
    requires field in s.vendors[invoice.vendor].fieldMappings
    requires s.vendors[invoice.vendor].fieldMappings[field].approvedByHuman
    requires Nullish(Normalize(invoice), field)
    ensures FillsFromMemory(s, invoice)
    ensures Filled(Normalize(invoice), MappingsOf(s, invoice.vendor))[field]
         == Derived(s.vendors[invoice.vendor].fieldMappings[field].sourceField)
    ensures !ReviewDecision(FillsFromMemory(s, invoice),
                            MissingFields(Filled(Normalize(invoice), MappingsOf(s, invoice.vendor)))).requiresHumanReview
  {
    assert field in TrustedFills(Normalize(invoice), MappingsOf(s, invoice.vendor));
  }

  /** The recall stage's second audit entry: whether the store knows the vendor, and how many mappings it holds. */
  function RecallOutcome(s: MemoryStore, vendor: string): (e: AuditEntry)
    ensures StageOf(e) == Recall
    ensures e.VendorFound? <==> vendor in s.vendors
    ensures e.VendorFound? ==> e.mappingCount == |s.vendors[vendor].fieldMappings|
  {
    if vendor in s.vendors then VendorFound(|s.vendors[vendor].fieldMappings|) else NoVendorFound
  }

  /**
   * The pipeline object. It is handed the store it works with; the store is
   * read through `memory.store` and written only by the learn step.
   */
  class Processor {
    const memory: Memory

    constructor (memory: Memory)
      ensures this.memory == memory
    {
      this.memory := memory;
    }

    /**
     * The learn step: record an approval of `issue` when review was not
     * required and the score is above 0.75, a rejection when the score is
     * below 0.4, and return what was recorded.
     */
    method Learn(issue: string, requiresHumanReview: bool, score: real) returns (updates: seq<MemoryUpdate>)
      modifies memory
      ensures updates == LearnOutcomes(requiresHumanReview, score, issue)
      ensures memory.store == Recorded(old(memory.store), updates)
    {
      ghost var s := memory.store;
      updates := [];
      if !requiresHumanReview && score > 0.75 {
        memory.UpdateResolution(issue, true);
        RecordedSnoc(s, updates, ResolutionApproved(issue));
        updates := updates + [ResolutionApproved(issue)];
      }
      if score < 0.4 {
        memory.UpdateResolution(issue, false);
        RecordedSnoc(s, updates, ResolutionRejected(issue));
        updates := updates + [ResolutionRejected(issue)];
      }
    }

    /**
     * The three apply stages against the current store: vendor mappings (only
     * when the vendor is known), correction patterns, then the resolution risk
     * bias. Returns the filled record, the proposals and audit entries of the
     * three stages (the ghost `fills`, `fired` and `risky` list the filled
     * fields, the firing corrections and the low resolutions in visiting
     * order), the running score and whether a trusted mapping was used.
     */
    method ApplyMemory(invoice: Invoice, vendorMemory: Option<VendorMemory>, score: real)
      returns (normalized: Record, proposals: seq<Proposal>, trail: seq<AuditEntry>, score': real, applied: bool,
               ghost fills: seq<string>, ghost fired: seq<string>, ghost risky: seq<string>)
      requires vendorMemory == Lookup(memory.store.vendors, invoice.vendor)
      ensures normalized == Filled(Normalize(invoice), MappingsOf(memory.store, invoice.vendor))
      ensures applied == FillsFromMemory(memory.store, invoice)
      ensures score' == StagedScore(memory.store, invoice, score)
      ensures Lists(fills, TrustedFills(Normalize(invoice), MappingsOf(memory.store, invoice.vendor)))
      ensures Lists(fired, FiringCorrections(invoice.rawText, memory.store.corrections))
      ensures Lists(risky, LowResolutions(memory.store.resolutions))
      ensures forall f :: f in fills ==> f in MappingsOf(memory.store, invoice.vendor)
      ensures forall k :: k in fired ==> k in memory.store.corrections
      ensures forall i :: i in risky ==> i in memory.store.resolutions
      ensures proposals == FillProposals(MappingsOf(memory.store, invoice.vendor), fills)
                           + PatternProposals(memory.store.corrections, fired)
      ensures trail == FillTrail(MappingsOf(memory.store, invoice.vendor), fills)
                       + PatternTrail(memory.store.corrections, fired)
                       + RiskTrail(memory.store.resolutions, risky)
      ensures AllAt(trail, Apply)
    {
      ghost var mappings := MappingsOf(memory.store, invoice.vendor);
      normalized := Normalize(invoice);
      proposals, trail, score', applied, fills := [], [], score, false, [];
      if vendorMemory.Some? {
        normalized, proposals, trail, score', applied, fills :=
          ApplyVendorMappings(normalized, vendorMemory.value.fieldMappings, score');
      } else {
        assert TrustedFills(normalized, mappings) == {};
        assert Filled(normalized, mappings) == normalized;
      }

      var patterns, patternTrail, score2;
      patterns, patternTrail, score2, fired := ApplyCorrectionPatterns(invoice.rawText, memory.store.corrections, score');
      AllAtConcat(trail, patternTrail, Apply);
      proposals, trail, score' := proposals + patterns, trail + patternTrail, score2;

      var riskTrail, score3;
      riskTrail, score3, risky := ApplyResolutionBias(memory.store.resolutions, score');
      AllAtConcat(trail, riskTrail, Apply);
      trail, score' := trail + riskTrail, score3;
    }

    /**
     * One invoice through recall, apply, decide and learn. The output and the
     * new store are determined by the invoice and the old store, up to the
     * order in which each apply stage visits the store's entries; the ghost
     * `fills`, `fired` and `risky` record that order.
     */
    method ProcessInvoice(invoice: Invoice)
      returns (out: ProcessedOutput, ghost fills: seq<string>, ghost fired: seq<string>, ghost risky: seq<string>)
      modifies memory
      ensures out.invoiceId == invoice.id
      ensures out.normalizedInvoice == Filled(Normalize(invoice), MappingsOf(old(memory.store), invoice.vendor))
      ensures out.requiresHumanReview == !FillsFromMemory(old(memory.store), invoice)
      ensures out.reasoning
           == ReviewDecision(FillsFromMemory(old(memory.store), invoice), MissingFields(out.normalizedInvoice)).reasoning
      ensures out.confidenceScore == ToFixed2(FinalScore(old(memory.store), invoice))
      ensures Lists(fills, TrustedFills(Normalize(invoice), MappingsOf(old(memory.store), invoice.vendor)))
      ensures Lists(fired, FiringCorrections(invoice.rawText, old(memory.store).corrections))
      ensures Lists(risky, LowResolutions(old(memory.store).resolutions))
      ensures forall f :: f in fills ==> f in MappingsOf(old(memory.store), invoice.vendor)
      ensures forall k :: k in fired ==> k in old(memory.store).corrections
      ensures forall i :: i in risky ==> i in old(memory.store).resolutions
      ensures out.proposedCorrections
           == FillProposals(MappingsOf(old(memory.store), invoice.vendor), fills)
              + PatternProposals(old(memory.store).corrections, fired)
      ensures out.auditTrail
           == [RecallStarted(invoice.vendor)] + [RecallOutcome(old(memory.store), invoice.vendor)] + [ApplyStarted]
              + (FillTrail(MappingsOf(old(memory.store), invoice.vendor), fills)
                 + PatternTrail(old(memory.store).corrections, fired)
                 + RiskTrail(old(memory.store).resolutions, risky))
              + [Decided(out.reasoning)] + [LearnStarted]
      ensures StagesInOrder(out.auditTrail)
      ensures out.memoryUpdates
           == LearnOutcomes(out.requiresHumanReview, FinalScore(old(memory.store), invoice),
                            invoice.vendor + ":" + invoice.id)
      ensures memory.store == Recorded(old(memory.store), out.memoryUpdates)
      ensures old(memory.Valid()) ==> memory.Valid()
    {
      var score := StartConfidence(invoice);

      // Recall
      var trail: seq<AuditEntry> := [RecallStarted(invoice.vendor)];
      var vendorMemory := memory.GetVendor(invoice.vendor);
      if vendorMemory.Some? {
        trail := trail + [VendorFound(|vendorMemory.value.fieldMappings|)];
      } else {
        trail := trail + [NoVendorFound];
      }
      ghost var found := RecallOutcome(memory.store, invoice.vendor);
      assert trail == [RecallStarted(invoice.vendor)] + [found];

      // Apply
      trail := trail + [ApplyStarted];
      var normalized, proposals, applyTrail, applied;
      normalized, proposals, applyTrail, score, applied, fills, fired, risky := ApplyMemory(invoice, vendorMemory, score);
      trail := trail + applyTrail;

      // Decide
      var missing := MissingFields(normalized);
      var decision := ReviewDecision(applied, missing);
      trail := trail + [Decided(decision.reasoning)];

      // Learn
      trail := trail + [LearnStarted];
      PipelineTrailInOrder(invoice.vendor, found, applyTrail, decision.reasoning);
      var updates := Learn(invoice.vendor + ":" + invoice.id, decision.requiresHumanReview, score);

      out := ProcessedOutput(invoice.id, normalized, proposals, decision.requiresHumanReview,
                             decision.reasoning, ToFixed2(score), updates, trail);
    }
  }
}
