# Invoice memory: knowledge store and decision pipeline

This project models the adaptive core of an invoice-processing agent, which
learns from human review.

- **Knowledge store** (`Memory`, in `src/memory.ts`). It holds three kinds of durable knowledge:
  - per vendor, field mappings, each flagged whether a human approved it;
  - per free-text pattern, a correction;
  - per issue key, a running tally of approved and rejected outcomes.

  Each mutator changes the store in place:
  - `ensureVendor` creates an empty record when the vendor is absent;
  - `updateVendor` replaces the vendor's record;
  - `approveVendorMapping` and `updateCorrection` create an entry, or raise its confidence by 0.1, capped at 1;
  - `updateResolution` seeds 0.6 or 0.3 on the first outcome, then sets the approval ratio;
  - `learnFromHumanCorrection` applies a reviewer's rules through these, then records one outcome.
- **Decision pipeline** (`Processor.processInvoice`, in `src/processor.ts`). It handles one invoice in four stages:
  - *recall*: look up what the store knows about the vendor;
  - *apply*: normalize the invoice, then apply three things: the human-approved field mappings (for empty fields only), the correction patterns found in the raw text, and a risk bias for every low-confidence resolution;
  - *decide*: decide whether a human must review the invoice;
  - *learn*: write an approved or a rejected resolution back to the store.

Layout:

- `strings.dfy` (module `Strings`) holds the JavaScript string built-ins the core relies on: `includes`, `split` and `trim`.
- `memory.dfy` (module `KnowledgeStore`) holds the store records and one pure function per mutator: `EnsuredVendor`, `UpdatedVendor`, `Approved`, `Corrected`, `Resolved` and `Learned`. It also defines the class `Memory`, whose `store` field every method rewrites. Each mutator's `ensures` ties the new store to the matching function (`EnsureVendor` to `EnsuredVendor`, `ApproveVendorMapping` to `Approved`, `LearnFromHumanCorrection` to `Learned`, and so on). A method also keeps the class invariant `Valid`, which says:
  - every record is filed under its own name;
  - every correction's and resolution's confidence is the one its counters determine.
- `processor.dfy` (module `DecisionPipeline`) holds the pipeline stages.
  - Each loop over a stored map is a method with a loop invariant. Its `ensures` gives the stage's result for any visiting order.
  - `Processor.ProcessInvoice` connects the stages. Its contract gives every output field and the new store as functions of the old store and the invoice. The one thing left open is the order in which each apply stage visits the store's entries. Ghost outputs record that order, and the contract gives the proposals and the audit trail in terms of it.

Confidence values are exact reals. JavaScript object iteration order becomes an arbitrary choice (`:|`) of the next key. The clock becomes a `now` parameter.

## Model

| member | source | states |
|---|---|---|
| Strings.IncludesIffOccurs | src/processor.ts:131 | `rawText.includes(pattern)` holds exactly when the pattern occurs at some position of the text |
| Strings.Split | src/memory.ts:199 | `split("→")` returns at least one piece; no piece contains the arrow; there are two or more pieces exactly when the arrow occurs |
| Strings.JoinSplit | src/memory.ts:199 | joining the split pieces with the arrow gives back the rule text |
| Strings.SplitHead | src/memory.ts:199 | the source piece is exactly the text before the first arrow |
| Strings.Trim | src/memory.ts:199 | `trim()` gives a slice of its input; only whitespace lies outside it; it neither starts nor ends with whitespace |
| KnowledgeStore.ApprovedMapping | src/memory.ts:120-134 | approval of an unseen target field creates the mapping at 0.85, marked human-approved, with provenance `["human"]` and count 1; approval of an existing mapping marks it approved, keeps its source field and provenance, adds one approval, and sets its confidence to min(1, old + 0.1), which never lowers a confidence of at most 1 |
| KnowledgeStore.RepeatedApproval | src/memory.ts:120-134 | after n approvals from nothing, the confidence is min(1, 0.85 + 0.1·(n−1)) and the count is n |
| KnowledgeStore.ReinforcedCorrection | src/memory.ts:147-160 | a new pattern starts at 0.4 with count 1; a repeat keeps the first correction text, adds one to the count, and sets the confidence to min(1, old + 0.1) whatever the stored entry held; a calibrated entry (confidence min(1, 0.4 + 0.1·(count−1))) stays calibrated |
| KnowledgeStore.RecordedResolution | src/memory.ts:171-186 | exactly the counter for the outcome goes up by one; the first outcome seeds 0.6 (approved) or 0.3 (rejected); on a repeat the confidence is the new approval ratio, whatever the stored entry held; it always stays in [0, 1] |
| KnowledgeStore.TallyCountsEveryCall | src/memory.ts:171-186 | over any sequence of outcomes for one issue, the counters add up to the number of calls, the approvals equal the approving calls, and the confidence is the seeded ratio |
| KnowledgeStore.EmptyStoreConsistent | src/memory.ts:53-67 | the empty store satisfies the store invariant |
| KnowledgeStore.EnsuredVendor | src/memory.ts:88-99 | the vendor is present afterwards; an unknown vendor gets an empty record and nothing else changes; a known vendor leaves the store unchanged; the invariant is kept |
| KnowledgeStore.EnsureVendorIdempotent | src/memory.ts:88-99 | ensuring a vendor twice is the same as ensuring it once |
| KnowledgeStore.UpdatedVendor | src/memory.ts:101-111 | only the record under the vendor's name changes; it takes the caller's mappings and a new `lastSeen`; the invariant is kept |
| KnowledgeStore.Approved | src/memory.ts:113-137 | in a consistent store, only the target mapping of that one vendor changes (becoming `ApprovedMapping`), the vendor exists afterwards, and corrections and resolutions are untouched; the invariant is kept |
| KnowledgeStore.Corrected | src/memory.ts:147-163 | only the entry for the pattern changes; it becomes the reinforced correction; the invariant is kept |
| KnowledgeStore.Resolved | src/memory.ts:171-189 | only the entry for the issue changes; it becomes the recorded resolution; the invariant is kept |
| KnowledgeStore.LearnRule | src/memory.ts:198-203 | a rule containing the arrow is `Approved` for the vendor with the trimmed text before the first arrow as source and the trimmed second piece as target (so that target mapping is human-approved, and corrections are untouched); any other rule is `Corrected` with the whole rule text as pattern and leaves vendors alone; resolutions are never touched |
| KnowledgeStore.LearnRules | src/memory.ts:197-206 | learning rules in order never touches resolutions; the new correction keys are exactly the arrow-free rules; vendors other than the given one are untouched; arrow-free rules never touch vendors; the invariant is kept |
| KnowledgeStore.LearnRulesStep | src/memory.ts:197-206 | learning one more rule is learning the earlier rules, then that rule |
| KnowledgeStore.Learned | src/memory.ts:195-208 | vendors and corrections end up exactly as `LearnRules` leaves them after the rules in order; then exactly one outcome is recorded, under the correction's invoice id; the invariant is kept |
| KnowledgeStore.Memory.constructor | src/memory.ts:53-67 | a store with no saved copy starts empty and valid |
| KnowledgeStore.Memory.GetVendor | src/memory.ts:84-86 | returns the vendor's record exactly when the vendor is known |
| KnowledgeStore.Memory.EnsureVendor | src/memory.ts:88-99 | the new store is `EnsuredVendor` of the old one; returns the stored record; validity is kept |
| KnowledgeStore.Memory.UpdateVendor | src/memory.ts:101-111 | the new store is `UpdatedVendor` of the old one; validity is kept |
| KnowledgeStore.Memory.ApproveVendorMapping | src/memory.ts:113-137 | the new store is `Approved` of the old one; validity is kept |
| KnowledgeStore.Memory.UpdateCorrection | src/memory.ts:147-163 | the new store is `Corrected` of the old one; validity is kept |
| KnowledgeStore.Memory.GetCorrection | src/memory.ts:165-167 | returns the stored correction exactly when the pattern is known |
| KnowledgeStore.Memory.UpdateResolution | src/memory.ts:171-189 | the new store is `Resolved` of the old one; validity is kept |
| KnowledgeStore.Memory.GetResolution | src/memory.ts:191-193 | returns the stored resolution exactly when the issue is known |
| KnowledgeStore.Memory.LearnFromHumanCorrection | src/memory.ts:195-208 | the new store is `Learned` of the old one: each rule is applied in order (arrow → mapping approval, anything else → correction), then one resolution; validity is kept |
| DecisionPipeline.Normalize | src/processor.ts:89-93 | the working record has the invoice's properties plus `invoiceId` and `vendor`; a property of the same name overrides the id or vendor |
| DecisionPipeline.StartConfidence | src/processor.ts:51 | a numeric `confidence` property is the starting score; an absent or null one gives the prior 0.5 |
| DecisionPipeline.Filled | src/processor.ts:96-120 | each field that is empty and has a human-approved mapping gets the placeholder naming the mapping's source field; every other field is unchanged; no other field is added |
| DecisionPipeline.FilledStep | src/processor.ts:100-104 | visiting one more mapping changes the filled record at that mapping's field at most, and only when the mapping is trusted |
| DecisionPipeline.ApplyVendorMappings | src/processor.ts:96-120 | in any visiting order, the record becomes `Filled`; the trusted flag is set exactly when something was filled; the score becomes max(score, 0.85) exactly then; each fill yields one proposal and one audit entry, and the filled fields are exactly the trusted ones |
| DecisionPipeline.Raised | src/processor.ts:138 | k nudges of +0.05, each capped at 1, never lower the score and keep it in [0, 1] |
| DecisionPipeline.ApplyCorrectionPatterns | src/processor.ts:123-147 | with no raw text (or empty raw text) nothing happens; otherwise the corrections that fire are exactly the stored ones with confidence ≥ 0.6 whose pattern occurs in the text; each fires once with one proposal and one audit entry; the score is raised once per firing |
| DecisionPipeline.Lowered | src/processor.ts:157 | k penalties of −0.05, each floored at 0, never raise the score and keep it in [0, 1] |
| DecisionPipeline.ApplyResolutionBias | src/processor.ts:150-165 | every stored resolution below 0.4 (for any issue) is reported once in the audit trail and lowers the score once; no other resolution has any effect |
| DecisionPipeline.MissingFields | src/processor.ts:170-172 | a key is missing exactly when the record holds it with a null value; there are none exactly when no field is null |
| DecisionPipeline.MissingAfterFill | src/processor.ts:170-172 | the fields reported missing after the fill are the null fields of the normalized record minus the trusted fills |
| DecisionPipeline.ReviewDecision | src/processor.ts:174-189 | review is skipped exactly when a trusted mapping was applied; otherwise the reason names the missing fields when there are any, and is low confidence when there are none |
| DecisionPipeline.LearnOutcomes | src/processor.ts:205-223 | an approval is recorded exactly when review was not required and the score is above 0.75; a rejection exactly when the score is below 0.4; never both; always under the given issue key |
| DecisionPipeline.Recorded | src/processor.ts:205-223 | no writes leave the store as it is; every written issue has a resolution afterwards; the learn writes change only resolutions, and only at the issues written; the invariant is kept |
| DecisionPipeline.RecordedSnoc | src/processor.ts:205-223 | each further write is one `updateResolution` (`Resolved`) applied to the store the earlier writes left |
| DecisionPipeline.ToFixed2 | src/processor.ts:233 | the reported score is a whole number of hundredths, within 0.005 of the exact one, and stays in [0, 1] when the exact one does |
| DecisionPipeline.ToFixed2Idempotent | src/processor.ts:233 | rounding an already rounded score changes nothing |
| DecisionPipeline.ScoreStaysInUnitInterval | src/processor.ts:51-165 | a score that starts in [0, 1] stays there through all three apply stages and the rounding |
| DecisionPipeline.ApprovedMappingSkipsReview | src/processor.ts:96-180 | for a known vendor, an approved mapping for a field the normalized invoice leaves empty fills that field with its placeholder, and the decision on the filled record skips review |
| DecisionPipeline.RecallOutcome | src/processor.ts:64-78 | the recall stage's second entry reports a found vendor exactly when the store knows the vendor, and then carries the number of its mappings |
| DecisionPipeline.Processor.constructor | src/processor.ts:40-42 | the processor keeps the store object it is handed |
| DecisionPipeline.PipelineTrailInOrder | src/processor.ts:55-203 | the audit trail (recall, apply, decide, learn) never goes back to an earlier stage; it starts with the recall entry and ends with the learn entry |
| DecisionPipeline.Processor.Learn | src/processor.ts:205-223 | the learn step records exactly `LearnOutcomes`, and the new store is the old one with those resolutions written in order |
| DecisionPipeline.Processor.ApplyMemory | src/processor.ts:88-165 | the three apply stages give the filled record, the trusted flag and the staged score as functions of the store. The proposals are the fill proposals for exactly the trusted fills, followed by the pattern proposals for exactly the firing corrections. The audit entries are the fill, pattern and low-resolution entries, each stage listing exactly its own items in its visiting order, all at the apply stage |
| DecisionPipeline.Processor.ProcessInvoice | src/processor.ts:44-237 | every output field is determined by the invoice and the old store: the id, the filled record, the review flag and reasoning, the rounded final score, the memory updates under `vendor:id`, the proposals (fills, then firing patterns), and the whole audit trail (recall, found or not, apply header, the three stages' entries, the decision, the learn marker). Only the visiting order inside each apply stage is left open. The audit trail is in stage order; the new store is the old one with the updates recorded; validity is kept |

## Left out

- **Persistence:** loading and saving the JSON file (`memoryPath`, `loadMemory`, `saveMemory`) is not modelled. The constructor models the case where no saved file exists. Each mutator's write-back to disk is dropped.
- **Time:** timestamps come from a `now` parameter. Audit entries carry no timestamp.
- **Numbers:** confidences are exact reals. IEEE-754 rounding (for example 0.85 + 0.1 + 0.1) is not modelled. `toFixed(2)` is modelled as rounding half away from zero on the exact value.
- **Iteration order:** JavaScript's key order for object iteration is not modelled; any order is allowed. As a result, the order of proposals and audit entries within one apply stage is left open. Each stage, and `ProcessInvoice`, fixes which items appear (each exactly once) and the entry for each, in terms of a ghost visiting order.
- **Strings:** Dafny strings are sequences of Unicode scalar values, while JavaScript strings are sequences of UTF-16 code units. So `includes` (src/processor.ts:131), `split` and `trim` are modelled on characters. A pattern that matches only half of a surrogate pair in JavaScript cannot be expressed.
- **Text:** the human-readable strings (proposal texts, reasoning sentences, audit details, memory-update messages) are modelled as datatype constructors that carry the same data. The order of the field names in the "missing fields" reasoning is modelled as a set.
- **Values:**
  - `properties.confidence` that is present but not a number is treated as absent. JavaScript would carry it on, unconverted.
  - A missing `properties` object is modelled as an empty map.
  - Invoice id and vendor are modelled as strings.
  - Keys inherited through the prototype chain are not modelled.
  - Inputs are typed: a human correction is a `HumanCorrection` (a list of rules with string texts), and raw text is an optional string. Malformed untyped input makes the source throw, and the model excludes it: a missing `learnedRules` or a non-string rule text (src/memory.ts:197-198), or a truthy non-string `rawText` (src/processor.ts:131).
- **Vendor record aliasing:** `updateVendor`'s spread of the stored record is subsumed: the record type has exactly three fields, and the caller supplies all of them. A store whose record is filed under a name other than its `vendorName` can alias in the source; the model covers it only through the `Consistent` invariant.
- **Resolution confidence:** the first outcome for an issue is seeded at 0.6 or 0.3 (src/memory.ts:179). Later outcomes set the confidence to the approval ratio (src/memory.ts:183-185). The model states exactly this. It does not claim that the confidence always equals the ratio.
- `src/demoRunner.ts` is not part of this model. It is the demo caller.
