# Verified models of vllm-musa

Dafny models of the parts of the vLLM MUSA platform plugin whose correctness is a relation
between a fast or rearranged form and a simple one, with proofs of that relation.

`dafny verify dfyconfig.toml` checks everything.

## What is modelled

**Graph rewrites.** `FxGraph` is a torch.fx graph: an ordered list of nodes whose arguments name
other nodes, and an object that passes edit in place. `PureEval` evaluates it over uninterpreted
values. `AllReduceFusion` and `AllReduceRewrite` are the pass that fuses an all-reduce with the
residual add and RMSNorm behind it, through both of its arms; `AllReduceLint` says when its
result is still in order, and `AllReduceChain` that one rewrite leaves the next layer fusable, so that
a chain of layers is fused in full (`AllReduceExample` has one of two layers). A rewrite is shown to keep every
node's value as a solution of the graph's equations, which does not depend on the list order; the
order that `graph.lint()` demands then makes the solution the result. `EffectEval` is the second
evaluator, with storages, views and KV caches, because RoPE writes in place and the KV update has
a side effect. `Qwen2*` and `Qwen3*` plan the all-or-nothing rewrite of every layer, apply it in
place, prove that an accepted plan can always be applied, and prove that both runs end alike by a
step-by-step simulation. `Qwen2Order` and `Qwen3Order` prove that the order of RoPE and KV update is
exactly what decides, with a layer of each in `Qwen2Example` and `Qwen3Example`. `Splice` has the
facts about list order they share.

**The patch series.** `PatchStack` is the split of a commit stack into MUSA and upstream commits
and its reordering; `AnchorGate` is the two gates on the blobs that patches are anchored to, over a
whole replay; `PatchMetadata` is the dependency loop and the ownership partition of the groups.

**Small-M FP8 kernels.** `Launch` says what a grid of programs leaves in a buffer when no two
stores meet, whichever program runs first. `BlockGemm`, `BlockGemv`, `SplitK` and `MoeMma` (with
`RouteMap`) are launches on it; `MoeExact` reads the MoE layer as two GEMVs.
`SplitK` and `MoeMma` keep every operation on values uninterpreted, so their equalities hold bit for
bit; `BlockGemm` and `BlockGemv` use exact reals. `KvInsert` is the paged FP8 cache insert, with the
exponent read from the bits of a binary32 number.

**mHC.** `MhcReduce`, `Sinkhorn` and `MhcPre` are three fused kernels of DeepSeek-V4's
hyper-connections, against the torch fallback, over exact reals with an abstract rounding to BF16,
an exponential that turns sums into products, and an exact reciprocal root. `MhcCache` is the
version-keyed cache of the full-width weight and the cache of identity pre-mixes.

**Two policies.** `Fa3` is the split arithmetic of the single-request FA3 schedule. `Thresholds`
is the benchmark's threshold recommendation.

## Where the code does less than it could be read to promise

- The all-reduce pass does not check that the other readers of the all-reduce or the add come
  after the insertion point. Values are kept either way (`AllReduceFusion.FusedSolves`), but lint
  may reject the list. `AllReduceLint.FusedLintIff` says exactly when: if and only if some reader
  that is redirected stands before the new nodes, or the norm's weight is the add itself. A later
  rewrite can repair the list, because the add arm inserts at the norm; so over a pass the condition
  is exact for all its lists together (`AllReduceLint.RunCleanIff`), not for the last one alone.
- The presplit planners never compare positions, so a RoPE that comes after its KV update is accepted
  (`SitesIgnoreOrder`), and lint accepts the result too. The original then caches the key unrotated
  and the rewritten graph rotated. `Qwen2Example` and `Qwen3Example` give a layer each where this
  happens. `Qwen2Order.CachesAgreeIff` and `Qwen3Order.CachesAgreeIff` say when: where the other premises
  hold, the caches of both runs always agree if and only if every RoPE precedes its KV update. The
  other premises are `Quiet` and `Settled`: nothing between the two nodes reads or writes what the fused
  call moves, and the attention reads what it is given in the usual places only.
- A diff section that yields no path still counts as producing its postimage, but nothing checks it.
  The text that does so is a bare diff, without a `diff --git` line, whose `+++` line has an unquoted
  space in its path: the pattern at `tools/musa_sync.py:949-958` does not match and the section has no
  path, though its `index` line is read. (The docstring there says that a deletion has none; a deletion
  does get a path.) `AnchorGate.AnchorsSoundIff` is the exact condition for the two gates to be enough,
  and `AnchorGate.PathlessClaimUnchecked` a series that fails it.
- An all-reduce that is its own residual is not erased and runs twice
  (`AllReduceFusion.CollectivesKept`, and `AllReduceLint.RunCollectives` for a whole pass).
- The add arm tries one RMSNorm per add, so an unsupported first one hides a supported second one
  (`AllReduceRewrite.FindAdd`).

## Model

| member | source | states |
|---|---|---|
| `PureEval.RunSettles` | vllm_musa/_inductor/musa_allreduce_rms_fusion.py:824-827 | on a lint-clean list the evaluator gives every node a value that depends on computed values only |
| `PureEval.OutcomeSolves` | vllm_musa/_inductor/musa_allreduce_rms_fusion.py:824-827 | the result of evaluating a lint-clean graph solves every node's equation |
| `PureEval.OutcomeUnique` | vllm_musa/_inductor/musa_allreduce_rms_fusion.py:824-827 | and it is the only solution: a valuation that solves a lint-clean graph is its result |
| `PureEval.EvalRenamed` | vllm_musa/_inductor/musa_allreduce_rms_fusion.py:744-749 | a node whose arguments are renamed to nodes of equal value keeps its value |
| `FxGraph.LintAcyclic` | vllm_musa/_inductor/musa_allreduce_rms_fusion.py:826 | a list that lint accepts has no node that uses itself and no two nodes that use each other |
| `FxGraph.FxGraph.InsertBefore` | vllm_musa/_inductor/musa_allreduce_rms_fusion.py:532-558 | a new node, right before the given one; all other nodes as they were |
| `FxGraph.FxGraph.ReplaceInput` | vllm_musa/_inductor/musa_allreduce_rms_fusion.py:746-749 | exactly the given users read the replacement instead |
| `FxGraph.FxGraph.Erase` | vllm_musa/_inductor/musa_allreduce_rms_fusion.py:751-757 | only a node without users can be erased, and only it goes |
| `FxGraph.FxGraph.Lint` | vllm_musa/_inductor/musa_allreduce_rms_fusion.py:826 | true exactly when every argument is defined earlier in the list |
| `AllReduceFusion.SiteOutputs` | vllm_musa/_inductor/musa_allreduce_rms_fusion.py:658-679 | at a matched site, through either arm, each node the rewrite takes over has the value of its output of the fused operator |
| `AllReduceFusion.SupportedIff` | vllm_musa/_inductor/musa_allreduce_rms_fusion.py:567-627 | the inputs are admitted if and only if input, all-reduce and residual have one and the same metadata, a contiguous fake half-precision matrix on a MUSA device of the configured width, that width is 8k with 1 <= k <= 2048, and the weight is a vector of it there |
| `AllReduceFusion.SwapKeepsIff` | vllm_musa/_inductor/musa_allreduce_rms_fusion.py:769-793 | where the all-reduce is the second argument of the add, the add keeps its value if and only if the sum is the same both ways |
| `AllReduceFusion.FusedSolves` | vllm_musa/_inductor/musa_allreduce_rms_fusion.py:733-757 | one rewrite keeps the value of every node, wherever the list puts the new nodes |
| `AllReduceFusion.FusedValid` | vllm_musa/_inductor/musa_allreduce_rms_fusion.py:733-757 | after one rewrite every argument is still a node of the graph: nothing with users was erased |
| `AllReduceFusion.RewiredUses` | vllm_musa/_inductor/musa_allreduce_rms_fusion.py:744-749 | who reads an old node after rewiring: a taken-over node nobody, the all-reduce nobody but the fused operator among its other readers, any other node its old readers |
| `AllReduceFusion.FusedErases` | vllm_musa/_inductor/musa_allreduce_rms_fusion.py:751-757 | one rewrite of a lint-clean graph erases the all-reduce unless it is its own residual; with it go exactly the nodes the fused operator takes over, and every other node keeps its operator |
| `AllReduceFusion.CollectivesKept` | vllm_musa/_inductor/musa_allreduce_rms_fusion.py:532-558 | one rewrite of a lint-clean graph leaves the number of collectives unchanged, except one more when the all-reduce is its own residual |
| `AllReduceFusion.RawIffOtherUser` | vllm_musa/_inductor/musa_allreduce_rms_fusion.py:795-796 | the three-output form is inserted if and only if the all-reduce has a user besides the node that consumes it |
| `AllReduceLint.ReadsReady` | vllm_musa/_inductor/musa_allreduce_rms_fusion.py:492-565 | everything the fused operator reads stands before the node it is inserted at |
| `AllReduceLint.OrderKept` | vllm_musa/_inductor/musa_allreduce_rms_fusion.py:532-558 | the rewritten list keeps the order of the old one, the new nodes standing at the place of the node they are inserted before |
| `AllReduceLint.FusedLintIff` | vllm_musa/_inductor/musa_allreduce_rms_fusion.py:738-757 | one rewrite leaves a list that lint accepts if and only if every reader it redirects stands behind the place of the new nodes and the norm's weight is not the add |
| `AllReduceLint.RunCleanIff` | vllm_musa/_inductor/musa_allreduce_rms_fusion.py:681-829 | from a lint-clean list, every list of the pass is lint-clean if and only if every rewrite meets that condition |
| `AllReduceLint.RunCollectives` | vllm_musa/_inductor/musa_allreduce_rms_fusion.py:681-829 | over such a pass the number of collectives is the first number plus one for every all-reduce rewritten that is its own residual |
| `AllReduceLint.RewrittenStayIff` | vllm_musa/_inductor/musa_allreduce_rms_fusion.py:681-829 | of the all-reduces such a pass rewrites, exactly those that are their own residual are still in the graph at its end |
| `AllReduceRewrite.InsertFusedOp` | vllm_musa/_inductor/musa_allreduce_rms_fusion.py:532-565 | inserts the fused node and its two or three outputs before the site's node |
| `AllReduceRewrite.RewriteFusedAdd` | vllm_musa/_inductor/musa_allreduce_rms_fusion.py:723-757 | the fused-add arm, step by step on the shared graph, is the specified rewrite |
| `AllReduceRewrite.RewriteAdd` | vllm_musa/_inductor/musa_allreduce_rms_fusion.py:795-816 | the add arm, step by step on the shared graph, is the specified rewrite |
| `AllReduceRewrite.FindFusedAdd` | vllm_musa/_inductor/musa_allreduce_rms_fusion.py:706-731 | finds a fused-add user that can be rewritten if there is one |
| `AllReduceRewrite.FindAdd` | vllm_musa/_inductor/musa_allreduce_rms_fusion.py:769-793 | finds an add that can be rewritten through the first RMSNorm it meets, or none can |
| `AllReduceRewrite.VisitNode` | vllm_musa/_inductor/musa_allreduce_rms_fusion.py:695-822 | one node of the snapshot: rewritten through the first arm that has a site, else left alone |
| `AllReduceRewrite.RewriteAllReduces` | vllm_musa/_inductor/musa_allreduce_rms_fusion.py:681-829 | the pass visits the snapshot in order, counts each form exactly, and succeeds exactly when nothing was rewritten or the result is lint-clean |
| `AllReduceRewrite.RunKeeps` | vllm_musa/_inductor/musa_allreduce_rms_fusion.py:695-822 | over a whole pass, any number of rewrites keep every old node's value in one common solution |
| `AllReduceRewrite.RewritePreservesOutcome` | vllm_musa/_inductor/musa_allreduce_rms_fusion.py:681-829 | for every graph and every meaning of the operators: if the list is lint-clean before and after, every surviving node evaluates to what it did; addition has to commute only if the pass fused an add with its all-reduce second |
| `AllReduceRewrite.OthersSurvive` | vllm_musa/_inductor/musa_allreduce_rms_fusion.py:744-757 | a node that is not an all-reduce, add, norm or item, so every output, survives the whole pass with its operator |
| `AllReduceChain.OutputMeta` | vllm_musa/_inductor/musa_allreduce_rms_fusion.py:559-563 | every output item of a rewrite carries the metadata of the rewritten all-reduce, and every node that survives keeps its own |
| `AllReduceChain.NextLayer` | vllm_musa/_inductor/musa_allreduce_rms_fusion.py:559-597 | an all-reduce whose add takes a replaced node as its residual still has a site after the rewrite, with the item in the node's place |
| `AllReduceChain.NextCombined` | vllm_musa/_inductor/musa_allreduce_rms_fusion.py:559-597 | so has one whose fused add does |
| `AllReduceChain.FusableKept` | vllm_musa/_inductor/musa_allreduce_rms_fusion.py:681-822 | rewriting one all-reduce keeps every other fusable one fusable, where their users have metadata that agrees and no node uses both |
| `AllReduceChain.ChainFused` | vllm_musa/_inductor/musa_allreduce_rms_fusion.py:681-829 | so where all candidates are fusable and no two share a user, the pass fuses every one of them: it changes the graph at exactly the candidates, and its two counters add up to their number |
| `AllReduceExample.BothFused` | vllm_musa/_inductor/musa_allreduce_rms_fusion.py:681-829 | two layers in a row, the second taking the first sum as its residual, for any number of tokens: both are fused |
| `EffectEval.AliasesLabel` | vllm_musa/compilation/qwen3_qk_rope_kv_presplit.py:117-151 | views and split items follow from their bases on a lint-clean graph |
| `EffectEval.LabelsUnique` | vllm_musa/compilation/qwen3_qk_rope_kv_presplit.py:117-151 | and only in one way |
| `EffectEval.ExecAgrees` | vllm_musa/compilation/qwen3_qk_rope_kv_presplit.py:332-409 | a node that touches none of some storages keeps two states equal outside them |
| `EffectEval.ExecuteLabelled` | vllm_musa/compilation/qwen3_qk_rope_kv_presplit.py:332-409 | any consistent labelling of views gives the run of the graph |
| `Presplit.SeenClashes` | vllm_musa/compilation/qwen2_rope_kv_presplit.py:164-165 | a seen set catches exactly the values that occurred before |
| `Splice.SpliceInsert` | vllm_musa/compilation/qwen2_rope_kv_presplit.py:276 | inserting before a node that still stands extends its list of successors |
| `Splice.SpliceErase` | vllm_musa/compilation/qwen2_rope_kv_presplit.py:291-294 | erasing a node leaves what was inserted before it |
| `Splice.PrecedesSpliced` | vllm_musa/compilation/qwen2_rope_kv_presplit.py:275-296 | new nodes stand in the order of the nodes they replace |
| `Qwen2Presplit.SiteUnique` | vllm_musa/compilation/qwen2_rope_kv_presplit.py:167-256 | one KV update has at most one site |
| `Qwen2Presplit.Plan` | vllm_musa/compilation/qwen2_rope_kv_presplit.py:152-262 | the planner returns the plan if there is one, and refuses only when there is none: all KV updates and all RoPEs, each by its own site and layer |
| `Qwen2Presplit.PackedIff` | vllm_musa/compilation/qwen2_rope_kv_presplit.py:132-150 | query, key and value of a site are, by the nodes' own fields, items 0, 1 and 2 of one cut into 14, 2 and 2 heads of 64, viewed as those heads in BF16; nothing else is accepted |
| `Qwen2Presplit.SeenBoth` | vllm_musa/compilation/qwen2_rope_kv_presplit.py:186-258 | the two seen sets catch exactly the candidates that clash with an earlier one |
| `Qwen2Apply.PlanApplicable` | vllm_musa/compilation/qwen2_rope_kv_presplit.py:225-262 | an accepted plan can be applied |
| `Qwen2Apply.RewireLegal` | vllm_musa/compilation/qwen2_rope_kv_presplit.py:290-294 | after the insertion the KV update has the attention as its one user and RoPE has none, so its check cannot fire |
| `Qwen2Apply.EraseLegal` | vllm_musa/compilation/qwen2_rope_kv_presplit.py:291-294 | neither the KV update nor RoPE has a user when it is erased |
| `Qwen2Apply.NoNewUser` | vllm_musa/compilation/qwen2_rope_kv_presplit.py:292-293 | no rewrite gives a later site's KV update or RoPE node a user |
| `Qwen2Apply.StillUsable` | vllm_musa/compilation/qwen2_rope_kv_presplit.py:275-294 | rewriting some sites leaves every other site usable and unchanged |
| `Qwen2Apply.StepApplied` | vllm_musa/compilation/qwen2_rope_kv_presplit.py:275-294 | one more rewrite of the graph in place is one more site of the specified result |
| `Qwen2Apply.Apply` | vllm_musa/compilation/qwen2_rope_kv_presplit.py:265-298 | applies every site; the graph is the specified one, and only lint can fail |
| `Qwen2Meaning.FusedIsBoth` | vllm_musa/compilation/qwen2_rope_kv_presplit.py:277-288 | the fused call is RoPE followed at once by the KV update |
| `Qwen2Meaning.StepBoth` | vllm_musa/compilation/qwen2_rope_kv_presplit.py:265-298 | one step of the original and the steps that replace it keep the two runs related |
| `Qwen2Meaning.Simulate` | vllm_musa/compilation/qwen2_rope_kv_presplit.py:265-298 | so do the rest of both runs, from any related states |
| `Qwen2Meaning.RunPreserved` | vllm_musa/compilation/qwen2_rope_kv_presplit.py:265-298 | the rewritten graph leaves the same KV caches, the same attention calls with all their inputs, and the same storages |
| `Qwen2Outcome.PlanPreservesRun` | vllm_musa/compilation/qwen2_rope_kv_presplit.py:152-298 | for every accepted plan whose RoPEs come before their KV updates with no other use of the packed tensor between: the whole run is preserved |
| `Qwen2Outcome.PlanReplacesAll` | vllm_musa/compilation/qwen2_rope_kv_presplit.py:260-298 | exactly the expected number of fused calls replaces all KV updates and all RoPEs |
| `Qwen2Outcome.LintPassesIff` | vllm_musa/compilation/qwen2_rope_kv_presplit.py:296 | lint accepts the result if and only if every fused call's arguments stand before its KV update |
| `Qwen2Outcome.SitesIgnoreOrder` | vllm_musa/compilation/qwen2_rope_kv_presplit.py:167-262 | the planner's tests do not depend on the order of the list |
| `Qwen2Order.CachesAgreeIff` | vllm_musa/compilation/qwen2_rope_kv_presplit.py:152-298 | where tensors can hold any list of bits, for every accepted plan whose other premises hold and whose result lint accepts: the caches of both whole runs agree for every meaning of the operators and every start if and only if every RoPE precedes its KV update |
| `Qwen2Order.LateRopeShows` | vllm_musa/compilation/qwen2_rope_kv_presplit.py:265-298 | with one RoPE behind its KV update, a layer that remembers its keys ends with another cache, from every start |
| `Qwen2Example.LateRopeAccepted` | vllm_musa/compilation/qwen2_rope_kv_presplit.py:152-298 | a layer whose KV update comes first: planning, applying and lint accept it, and every other premise holds |
| `Qwen2Example.LateRopeDiffers` | vllm_musa/compilation/qwen2_rope_kv_presplit.py:265-298 | given two tensors, its two runs end with different caches |
| `Qwen3Presplit.SiteUnique` | vllm_musa/compilation/qwen3_qk_rope_kv_presplit.py:190-312 | one KV update has at most one site |
| `Qwen3Presplit.Plan` | vllm_musa/compilation/qwen3_qk_rope_kv_presplit.py:177-318 | the planner returns the plan if there is one, and refuses only when there is none |
| `Qwen3Presplit.HeadsFillParts` | vllm_musa/compilation/qwen3_qk_rope_kv_presplit.py:17-20 | exactly two packings are accepted, 2048 or 4096 wide for the query and 1024 for key and value, and the heads of 128 fill each part |
| `Qwen3Presplit.PackedIff` | vllm_musa/compilation/qwen3_qk_rope_kv_presplit.py:226-262 | query, key and value of a site are, by the nodes' own fields, items 0, 1 and 2 of one such cut, viewed as 16 or 32, 8 and 8 heads of 128 in BF16 |
| `Qwen3Outcome.PlanApplicable` | vllm_musa/compilation/qwen3_qk_rope_kv_presplit.py:262-318 | an accepted plan can be applied |
| `Qwen3Outcome.SitesUnique` | vllm_musa/compilation/qwen3_qk_rope_kv_presplit.py:190-312 | a plan fixes the nodes around its candidates |
| `Qwen3Apply.SitesApart` | vllm_musa/compilation/qwen3_qk_rope_kv_presplit.py:262-314 | two sites have no node in common |
| `Qwen3Apply.MadeUses` | vllm_musa/compilation/qwen3_qk_rope_kv_presplit.py:348-384 | after the insertions only the attention uses the KV update, and nothing uses RoPE |
| `Qwen3Apply.EraseLegal` | vllm_musa/compilation/qwen3_qk_rope_kv_presplit.py:385-388 | neither has a user when it is erased, so the "gained an unexpected user" error cannot fire |
| `Qwen3Apply.StepErases` | vllm_musa/compilation/qwen3_qk_rope_kv_presplit.py:390-405 | what the rewrite of a site erases is exactly what it leaves unused |
| `Qwen3Apply.NoNewUser` | vllm_musa/compilation/qwen3_qk_rope_kv_presplit.py:341-388 | no rewrite gives a node of a later site a user |
| `Qwen3Apply.StillWired` | vllm_musa/compilation/qwen3_qk_rope_kv_presplit.py:341-405 | rewriting some sites leaves the users of every other site as they were |
| `Qwen3Apply.StepApplied` | vllm_musa/compilation/qwen3_qk_rope_kv_presplit.py:341-405 | one more rewrite in place is one more site of the specified result |
| `Qwen3Apply.Apply` | vllm_musa/compilation/qwen3_qk_rope_kv_presplit.py:332-409 | applies every site; the graph is the specified one, and only lint can fail |
| `Qwen3Meaning.VisibleRedirected` | vllm_musa/compilation/qwen3_qk_rope_kv_presplit.py:382-384 | redirecting an attention that reads query and key once each is renaming these two |
| `Qwen3Meaning.RopeNow` | vllm_musa/compilation/qwen3_qk_rope_kv_presplit.py:351-378 | when RoPE runs in the original it produces what the fused call would produce now |
| `Qwen3Meaning.KvNow` | vllm_musa/compilation/qwen3_qk_rope_kv_presplit.py:351-378 | at the KV update both runs insert the same key and value for the same layer |
| `Qwen3Meaning.StepBoth` | vllm_musa/compilation/qwen3_qk_rope_kv_presplit.py:341-405 | one step of the original and the steps that replace it keep the two runs related |
| `Qwen3Meaning.Simulate` | vllm_musa/compilation/qwen3_qk_rope_kv_presplit.py:332-409 | so do the rest of both runs, from any related states |
| `Qwen3Outcome.RunPreserved` | vllm_musa/compilation/qwen3_qk_rope_kv_presplit.py:332-409 | the rewritten graph leaves the same KV caches, the same attention calls with all their inputs, and the same storages but those of the old norms and the new outputs |
| `Qwen3Outcome.PlanPreservesRun` | vllm_musa/compilation/qwen3_qk_rope_kv_presplit.py:177-409 | for every accepted plan with norm and RoPE before the KV update, inputs not overwritten meanwhile, and query and key read once: the whole run is preserved |
| `Qwen3Outcome.PlanReplacesAll` | vllm_musa/compilation/qwen3_qk_rope_kv_presplit.py:316-409 | exactly the expected number of fused calls replaces all KV updates and all RoPEs |
| `Qwen3Outcome.SitesIgnoreOrder` | vllm_musa/compilation/qwen3_qk_rope_kv_presplit.py:190-318 | the planner's tests do not depend on the order of the list |
| `Qwen3Outcome.OldNodesGoIff` | vllm_musa/compilation/qwen3_qk_rope_kv_presplit.py:390-405 | the old norms and views all go if and only if the attention reads query and key once each and RoPE's other inputs are not what it rotates |
| `Qwen3Lint.LintPassesIff` | vllm_musa/compilation/qwen3_qk_rope_kv_presplit.py:407 | lint accepts the result if and only if every new call's arguments stand before its KV update |
| `Qwen3Lint.RopeFirstPassesLint` | vllm_musa/compilation/qwen3_qk_rope_kv_presplit.py:407 | in particular when every RoPE precedes its KV update |
| `Qwen3Order.CachesAgreeIff` | vllm_musa/compilation/qwen3_qk_rope_kv_presplit.py:177-409 | where there are two tensors, for every accepted plan whose other premises hold and whose result lint accepts: the caches of both whole runs agree for every meaning of the operators and every start if and only if every RoPE precedes its KV update |
| `Qwen3Order.LateRopeDisagrees` | vllm_musa/compilation/qwen3_qk_rope_kv_presplit.py:332-409 | with one RoPE behind its KV update, two tensors suffice for a run whose caches differ |
| `Qwen3Example.LayerPlanned` | vllm_musa/compilation/qwen3_qk_rope_kv_presplit.py:177-318 | a layer in either packing is planned, whatever the order of its list |
| `Qwen3Example.LateRopeAccepted` | vllm_musa/compilation/qwen3_qk_rope_kv_presplit.py:177-409 | in either packing, a layer whose KV update comes first: planning, applying and lint accept it, and every other premise holds |
| `Qwen3Example.LateRopeDiffers` | vllm_musa/compilation/qwen3_qk_rope_kv_presplit.py:332-409 | given two tensors, its two runs end with different caches |
| `PatchStack.FirstPickFirst` | tools/musa_sync.py:2461 | no commit before the first cherry-pick is one, and it is one |
| `PatchStack.SplitStack` | tools/musa_sync.py:2461-2473 | the scan ends with the least set that contains the cherry-picks and, with a commit, every later commit sharing a file with it |
| `PatchStack.LeastClosedUnique` | tools/musa_sync.py:2465-2472 | there is only one such set, so the scan order does not matter |
| `PatchStack.SplitOffIff` | tools/musa_sync.py:2462-2473 | a commit is split off if and only if a chain of commits, each sharing a file with the one before, leads to it from a cherry-pick |
| `PatchStack.ApplyCommutes` | tools/musa_sync.py:2397-2402 | commits without a common file commute |
| `PatchStack.ReplayCommutes` | tools/musa_sync.py:2397-2402 | a commit moves past any list of commits it shares no file with, seeing the same contents |
| `PatchStack.MovePreserves` | tools/musa_sync.py:2411-2425 | behind any lead, moving the closure to the end keeps the final tree and what every commit sees |
| `PatchStack.ReorderPreserves` | tools/musa_sync.py:2392-2446 | the regenerated order gives the same final tree from any base, and every commit finds the same contents at the files it changes |
| `PatchStack.ClosureOfKept` | tools/musa_sync.py:2465-2473 | the closure does not change when the commits outside it are taken away |
| `PatchStack.SeriesShape` | tools/musa_sync.py:2410-2419 | where the first cherry-pick stands in the series and what follows it |
| `PatchStack.RegenIsFixedPoint` | tools/musa_sync.py:2943-2951 | splitting the regenerated stack finds the same set, all of it behind everything else, and regenerating changes nothing |
| `PatchStack.RestackIffMoved` | tools/musa_sync.py:2949-2951 | the rebuild happens if and only if regenerating would move a commit |
| `PatchMetadata.FindsCycle` | tools/patch_metadata.py:178-185 | the loop reports a cycle if and only if the admitted groups have one, and always ends |
| `PatchMetadata.CycleNotReady` | tools/patch_metadata.py:179-180 | no group on a cycle is ever ready |
| `PatchMetadata.WalkFindsCycle` | tools/patch_metadata.py:181-183 | where no group is ready there is a cycle |
| `PatchMetadata.CheckDependencies` | tools/patch_metadata.py:167-185 | the dependency errors are those of `BadDependencies`, and the cycle exactly when there is one |
| `PatchMetadata.BadDependenciesIff` | tools/patch_metadata.py:167-170 | an unknown-or-self error names a group and an entry of its list that is malformed, the group itself or no group, and every such entry is reported |
| `PatchMetadata.IdsAre` | tools/patch_metadata.py:126-137 | the ids that a dependency may name are those of all groups |
| `PatchMetadata.CleanGraphIsWhole` | tools/patch_metadata.py:171-177 | without an unknown dependency every well-typed group is in the graph that is searched |
| `PatchMetadata.GraphFromGroups` | tools/patch_metadata.py:171-177 | the edges of a group in that graph are the dependencies it lists, all of them and no others |
| `PatchMetadata.Duplicates` | tools/patch_metadata.py:186-188 | one error for each patch listed more than once, and no other |
| `PatchMetadata.CheckOwnership` | tools/patch_metadata.py:143-191 | no ownership error if and only if every present patch is listed exactly once and nothing else is listed; and which errors otherwise |
| `PatchMetadata.ListedConcat` | tools/patch_metadata.py:128-147 | the patch entries of a list of groups are those of its parts, one after the other |
| `PatchMetadata.ListedOne` | tools/patch_metadata.py:128-147 | a group's entries are its own list |
| `AnchorGate.AnchorsAre` | tools/musa_sync.py:1005-1023 | the anchors of an entry are the preimages of every index line of every section that is no gitlink, its claims the postimages; the zero id is neither |
| `AnchorGate.PostimageIff` | tools/musa_sync.py:972-1002 | a claim at a path is a postimage of a section that yields the path and is no gitlink |
| `AnchorGate.CollectAnchors` | tools/musa_sync.py:1116-1132 | the first pass separates, entry by entry, the anchors an earlier entry claims from the others |
| `AnchorGate.AddNotBlobs` | tools/musa_sync.py:1153-1166 | the second adds the anchors that resolve to something else than a blob, claimed or not |
| `AnchorGate.MissingIndexBlobs` | tools/musa_sync.py:1078-1181 | the findings are exactly the anchors that are neither a blob here nor missing here and claimed by an earlier entry |
| `AnchorGate.PostimageDeclared` | tools/musa_sync.py:972-1002 | where every section yields a path, every postimage that counts as produced is also checked |
| `AnchorGate.EntryRows` | tools/musa_sync.py:1683-1720 | no row for an entry if and only if each of its claims is the blob at the declared path in its own commit |
| `AnchorGate.UnearnedExemptionRows` | tools/musa_sync.py:1643-1721 | no row at all if and only if every claim of every entry is earned |
| `AnchorGate.AnchorsSound` | tools/musa_sync.py:1078-1181 | when both gates are silent and every missing anchor is claimed at a path by an earlier entry, at each step of the replay every anchor is a blob of the object database at that moment |
| `AnchorGate.PathsKnownBacked` | tools/musa_sync.py:949-969 | in particular when every section yields its path |
| `AnchorGate.UnbackedFails` | tools/musa_sync.py:1675-1677 | for a missing anchor that no earlier entry claims at a path, a replay passes both gates without the anchor |
| `AnchorGate.AnchorsSoundIff` | tools/musa_sync.py:1078-1181 | for a series the offline gate accepts, silence of the replay gate anchors every entry in every replay if and only if every missing anchor is claimed at a path by an earlier entry |
| `AnchorGate.PathlessClaimUnchecked` | tools/musa_sync.py:1675-1677 | a series of two entries where that fails: the section that declares the id has no path, and the next entry rests on it |
| `BlockGemm.SwizzleOnto` | vllm_musa/kernels/fp8_block_gemm.py:39-47 | every tile is computed by some program, short last group included |
| `BlockGemm.SwizzleOneToOne` | vllm_musa/kernels/fp8_block_gemm.py:39-47 | and by no other: the swizzle is a bijection from program ids onto the tile grid |
| `BlockGemm.OneProgramPerElement` | vllm_musa/kernels/fp8_block_gemm.py:69-75 | every element of C is a live lane of exactly one program |
| `BlockGemm.StepIsGroup` | vllm_musa/kernels/fp8_block_gemm.py:60-67 | one masked step is one scale group's share, and nothing past the last group |
| `BlockGemm.KLoop` | vllm_musa/kernels/fp8_block_gemm.py:58-67 | the K loop computes the sum over all scale groups, each once, whatever the K tile |
| `BlockGemm.Program` | vllm_musa/kernels/fp8_block_gemm.py:49-75 | one program stores its tile's live elements and no others |
| `BlockGemm.BlockScaledMm` | vllm_musa/kernels/fp8_block_gemm.py:154-195 | runs the programs of the grid, in any order: element (m, n) of the scaled product is at `m * stride + n`, and the gaps between rows are untouched |
| `BlockGemm.AdmittedFits` | vllm_musa/kernels/fp8_block_gemm.py:107-151 | every configuration the gate admits meets what the kernel relies on |
| `Launch.CommitOne` | vllm_musa/kernels/fp8_block_gemm.py:172-194 | the stores of whichever waiting program ran next leave its values, and every other program's |
| `Launch.AllRan` | vllm_musa/kernels/fp8_block_gemm.py:172-194 | once every program ran, in any order, each stored element holds its own program's value and the rest of the buffer is untouched |
| `BlockGemv.GroupStart` | vllm_musa/kernels/fp8_block_gemv.py:126-143 | the scale index read at the start of a small group is that of every column in it |
| `BlockGemv.LaneIsTerm` | vllm_musa/kernels/fp8_block_gemv.py:126-144 | a lane of a wide tile multiplies by its own column's two scales |
| `BlockGemv.ScaleRowShared` | vllm_musa/kernels/fp8_block_gemv.py:313-314 | the columns of one program share one row of weight scales |
| `BlockGemv.GemvDot` | vllm_musa/kernels/fp8_block_gemv.py:170-194 | the K loop computes the dequantized product, whatever the tile; a row of no expert gives zero |
| `BlockGemv.MoeGemv` | vllm_musa/kernels/fp8_block_gemv.py:623-659 | runs the programs in any order: column n of output row o is at `o * stride + n`, the sum of its slots' dequantized products times their weights, rows of no expert counting zero; the gaps are untouched |
| `BlockGemv.AdmittedFits` | vllm_musa/kernels/fp8_block_gemv.py:60-71 | every measured or default tile fits every group size the gate accepts |
| `BlockGemv.GemvIsGemm` | vllm_musa/kernels/fp8_block_gemv.py:547 | the GEMV and the block GEMM compute the same elements over exact reals |
| `SplitK.OneOwner` | vllm_musa/kernels/fp8_block_splitk.py:76-111 | every partial is stored by exactly one program |
| `SplitK.SliceLoop` | vllm_musa/kernels/fp8_block_splitk.py:87-109 | an unrolled slice adds its 32-wide groups left to right |
| `SplitK.PartProgram` | vllm_musa/kernels/fp8_block_splitk.py:53-111 | one program of the first kernel stores exactly its partials |
| `SplitK.ReduceProgram` | vllm_musa/kernels/fp8_block_splitk.py:115-132 | one program of the second kernel stores exactly the sums of its block |
| `SplitK.PartsReduce` | vllm_musa/kernels/fp8_block_splitk.py:124-129 | every partial the second kernel reads is the one the first stored |
| `SplitK.SplitKMm` | vllm_musa/kernels/fp8_block_splitk.py:170-227 | both launches, each running its programs in any order, leave element (m, n) of the output at `m * stride + n`, whatever the scratch buffer held; the gaps between rows are untouched |
| `SplitK.OutputIsFolds` | vllm_musa/kernels/fp8_block_splitk.py:87-129 | with no law of addition: of the K / 32 group terms in column order each slice is the left fold of its own stretch, and the output the left fold of the slices |
| `SplitK.AdmittedFits` | vllm_musa/kernels/fp8_block_splitk.py:135-167 | an admitted configuration fits both kernels, pads no more rows than 16-row tiles, and splits K the same for every admitted row count |
| `SplitK.RowIndependence` | vllm_musa/kernels/fp8_block_splitk.py:76-132 | a row gives the same output bit for bit in every admitted batch, whatever its place, its neighbours, the batch size and the tile height: no law of addition is used |
| `SplitK.SplitIsUnsplit` | vllm_musa/kernels/fp8_block_splitk.py:87-129 | where addition is associative the output is the fold of the list of all K / 32 group terms, each once, in column order |
| `RouteMap.OwnerIs` | vllm_musa/kernels/fp8_moe_mma.py:56-65 | the masked sum is the index of the first row with the row's expert |
| `RouteMap.PlaceUnique` | vllm_musa/kernels/fp8_moe_mma.py:55-66 | two rows never get the same place |
| `RouteMap.RankTaken` | vllm_musa/kernels/fp8_moe_mma.py:55 | every rank below an expert's row count is some row's |
| `RouteMap.RouteMapKernel` | vllm_musa/kernels/fp8_moe_mma.py:36-70 | the kernel's four stores into an uninitialised map leave the rows, experts, counts and the total |
| `RouteMap.RowFound` | vllm_musa/kernels/fp8_moe_mma.py:74-86 | a row that fits its expert's tile is found there, under its own expert |
| `RouteMap.LaneHolds` | vllm_musa/kernels/fp8_moe_mma.py:74-86 | whatever a tile lane reads is a row of that expert at that rank |
| `RouteMap.PackedOnceIff` | vllm_musa/kernels/fp8_moe_mma.py:66 | each valid row is packed exactly once if it is among its expert's first 16, and otherwise nowhere |
| `RouteMap.EveryRowFits` | vllm_musa/kernels/fp8_moe_mma.py:313-314 | at most 16 tokens with distinct ids each: every valid row fits its expert's tile |
| `MoeMma.LaneOwner` | vllm_musa/kernels/fp8_moe_mma.py:114-115 | only the program of a packed row's expert holds the row |
| `MoeMma.Program1` | vllm_musa/kernels/fp8_moe_mma.py:90-137 | one program of the first kernel stores exactly the partials of the rows of its expert |
| `MoeMma.Launch1` | vllm_musa/kernels/fp8_moe_mma.py:90-137 | every gate/up partial of a packed row is stored once, with its expert's value |
| `MoeMma.SlicesAre` | vllm_musa/kernels/fp8_moe_mma.py:210-213 | the partials the second kernel adds up are those values |
| `MoeMma.GatesAre` | vllm_musa/kernels/fp8_moe_mma.py:205-213 | a packed row's gate and up are the ones its own expert computes |
| `MoeMma.Program2` | vllm_musa/kernels/fp8_moe_mma.py:193-223 | one program of the second kernel stores exactly its group's codes and scale |
| `MoeMma.Launch2` | vllm_musa/kernels/fp8_moe_mma.py:193-223 | the codes and scale of every group of a packed row are the definition's |
| `MoeMma.Program3` | vllm_musa/kernels/fp8_moe_mma.py:227-272 | one program of the third kernel stores exactly the weighted down projections of its expert's rows |
| `MoeMma.Launch3` | vllm_musa/kernels/fp8_moe_mma.py:227-272 | every down partial of a packed row is the row's defined value |
| `MoeMma.SlotSumIs` | vllm_musa/kernels/fp8_moe_mma.py:289-294 | the slot sum over the buffer is the token's defined output |
| `MoeMma.Program4` | vllm_musa/kernels/fp8_moe_mma.py:276-297 | one program of the last kernel stores exactly the slot sums of its block |
| `MoeMma.FusedMoe` | vllm_musa/kernels/fp8_moe_mma.py:337-430 | the four launches, each running its programs in any order: column n of token t is at `t * stride + n`, the sum over its routed rows of its own experts' values, whatever the uninitialised buffers held; the gaps are untouched |
| `MoeMma.Launch4` | vllm_musa/kernels/fp8_moe_mma.py:276-297 | the last launch puts column n of token t at `t * stride + n` |
| `MoeMma.ProjectionIsFolds` | vllm_musa/kernels/fp8_moe_mma.py:128-136 | with no law of addition: a projection is the left fold of eight slices, each the left fold of its own eighth of the group terms in column order |
| `MoeMma.ProjectionIsUnsplit` | vllm_musa/kernels/fp8_moe_mma.py:128-136 | where addition is associative it is the fold of the list of all group terms, each once, as the GEMV path adds them |
| `MoeMma.GroupsFold` | vllm_musa/kernels/fp8_moe_mma.py:254-268 | the down projection is the left fold over the 32-wide groups of its row |
| `MoeMma.SlotsFold` | vllm_musa/kernels/fp8_moe_mma.py:289-294 | a token's output is the left fold of its routed rows in slot order, rows of no expert being zero |
| `MoeExact.ProjectionIsDot` | vllm_musa/kernels/fp8_moe_mma.py:90-137 | over exact reals a gate or up of a routed row is its column of the gate/up GEMV |
| `MoeExact.GroupIs` | vllm_musa/kernels/fp8_moe_mma.py:193-223 | and each code and scale is the quantization of 32 gates and ups of that GEMV |
| `MoeExact.LayerIsTwoGemvs` | vllm_musa/kernels/fp8_moe_mma.py:337-430 | over exact reals a token's output is the down GEMV on the codes and scales that quantize the gate/up GEMV's output, with the router's weights |
| `KvInsert.ValueMono` | vllm_musa/kernels/deepseek_v4_rope_kv_insert.py:89-90 | more bits, larger number, for non-negative binary32 (IEEE 754-2019 section 3.4) |
| `KvInsert.MaxBitsBounds` | vllm_musa/kernels/deepseek_v4_rope_kv_insert.py:88-90 | the bits of a group's largest magnitude, at least those of 1e-4 |
| `KvInsert.ExponentIsLeast` | vllm_musa/kernels/deepseek_v4_rope_kv_insert.py:86-91 | the exponent is the least power of two for which no element exceeds 448 times it |
| `KvInsert.ExponentRange` | vllm_musa/kernels/deepseek_v4_rope_kv_insert.py:91-97 | the byte and the bits of the inverse scale are in range without a clamp |
| `KvInsert.InverseIsExact` | vllm_musa/kernels/deepseek_v4_rope_kv_insert.py:92 | those bits are the exact inverse of the scale the byte stands for |
| `KvInsert.ClampsNeverAct` | vllm_musa/kernels/deepseek_v4_rope_kv_insert.py:93-97 | on finite input neither clamp acts |
| `KvInsert.AddrIs` | vllm_musa/kernels/deepseek_v4_rope_kv_insert.py:76-83 | the address of every byte: the slots' 576 bytes first in a page, then 8 scale bytes for each slot |
| `KvInsert.InsidePage` | vllm_musa/kernels/deepseek_v4_rope_kv_insert.py:78-83 | every byte of a slot stays inside its own page's stride |
| `KvInsert.BytesApart` | vllm_musa/kernels/deepseek_v4_rope_kv_insert.py:78-112 | bytes of different slots, and different bytes of one slot, have different addresses |
| `KvInsert.GroupScale` | vllm_musa/kernels/deepseek_v4_rope_kv_insert.py:86-112 | all elements of a 64-wide group are coded with one exponent, the least power of two of which 448 times covers them all and 1e-4; the group's scale byte is it plus 127; the rotated part follows and the eighth scale byte is zero |
| `KvInsert.Program` | vllm_musa/kernels/deepseek_v4_rope_kv_insert.py:76-112 | one program stores exactly its token's bytes, and nothing for a slot outside the cache |
| `KvInsert.Insert` | vllm_musa/kernels/deepseek_v4_rope_kv_insert.py:76-112 | runs a program per token in any order: each in-range token's 584 bytes are in its slot; every other slot and the padding are untouched |
| `MhcReduce.GroupedIsPlain` | vllm_musa/deepseek_v4_jit/tilelang_kernels.py:1077-1102 | strided groups, the last one short, add up to the plain sum: each split counts once |
| `MhcReduce.ColumnSums` | vllm_musa/deepseek_v4_jit/tilelang_kernels.py:1077-1102 | both phases leave every column's sum over all splits |
| `MhcReduce.LoadedColumnSums` | vllm_musa/deepseek_v4_jit/tilelang_kernels.py:833-853 | so do loading every partial and adding in split order |
| `MhcReduce.WarpSumIsPlain` | vllm_musa/deepseek_v4_jit/tilelang_kernels.py:946-961 | lanes adding every 32nd split add up to the plain sum |
| `MhcReduce.ShuffleDownAdd` | vllm_musa/deepseek_v4_jit/tilelang_kernels.py:909-914 | one shuffle step halves the lanes that hold the total |
| `MhcReduce.TreeSum` | vllm_musa/deepseek_v4_jit/tilelang_kernels.py:898-917 | barriers and shuffles leave the sum of all 128 threads in thread 0 |
| `MhcReduce.ElementsOnce` | vllm_musa/deepseek_v4_jit/tilelang_kernels.py:878-884 | every element of the row is in exactly one thread's share |
| `MhcReduce.ThreadsAddUp` | vllm_musa/deepseek_v4_jit/tilelang_kernels.py:877-897 | the threads' shares add up to the whole row |
| `MhcReduce.RowSum` | vllm_musa/deepseek_v4_jit/tilelang_kernels.py:876-917 | the sum of squares of the row |
| `Sinkhorn.ShiftCancels` | vllm_musa/deepseek_v4_jit/tilelang_kernels.py:562-568 | subtracting a row's maximum before exponentiating cancels in the softmax |
| `Sinkhorn.SoftmaxStep` | vllm_musa/deepseek_v4_jit/tilelang_kernels.py:562-568 | the in-place steps are softmax plus eps |
| `Sinkhorn.Normalise` | vllm_musa/deepseek_v4_jit/tilelang_kernels.py:557-583 | the in-place loop gives the fallback's combination matrix for every number of rounds |
| `Sinkhorn.ColumnsEnd` | vllm_musa/deepseek_v4_mhc.py:1012-1016 | every column of the result sums to c / (c + eps) for some positive c, so strictly between 0 and 1, and every entry is positive |
| `Sinkhorn.ColumnAfter` | vllm_musa/deepseek_v4_mhc.py:1013-1016 | a column divided by its sum plus eps sums to c / (c + eps), strictly between 0 and 1 |
| `Sinkhorn.ColumnRatio` | vllm_musa/deepseek_v4_mhc.py:1013-1016 | and its entries keep their ratios |
| `Sinkhorn.RowAfter` | vllm_musa/deepseek_v4_mhc.py:1015 | a row divided by its sum plus eps sums to r / (r + eps), strictly between 0 and 1 |
| `Sinkhorn.RowRatio` | vllm_musa/deepseek_v4_mhc.py:1015 | and its entries keep their ratios |
| `Sinkhorn.DivideRows` | vllm_musa/deepseek_v4_jit/tilelang_kernels.py:575-577 | the matrix the kernel's row step leaves has normalised rows in the old ratios |
| `Sinkhorn.DivideCols` | vllm_musa/deepseek_v4_jit/tilelang_kernels.py:578-580 | the matrix its column step leaves has normalised columns in the old ratios |
| `Sinkhorn.SoftmaxRow` | vllm_musa/deepseek_v4_mhc.py:1012 | before eps is added a row of the softmax sums to one |
| `Sinkhorn.SoftmaxRatio` | vllm_musa/deepseek_v4_mhc.py:1012 | its entries in the ratio of the exponentials |
| `Sinkhorn.FallbackSteps` | vllm_musa/deepseek_v4_mhc.py:1012-1016 | columns once after the softmax, then in each further round rows and columns, in that order |
| `MhcPre.PreMixIs` | vllm_musa/deepseek_v4_mhc.py:995-1001 | the pre-mix is `sigmoid` of the scaled and shifted product over the root mean square, plus its epsilon; the product is that of the four copies one after another |
| `MhcPre.PostMixIs` | vllm_musa/deepseek_v4_mhc.py:1002-1008 | the post-mix uses mixes 4 to 7, the second scale and its multiplier |
| `MhcPre.LogitIs` | vllm_musa/deepseek_v4_mhc.py:1009-1011 | entry (j, k) of the combination matrix uses mix 8 + 4j + k and the third scale |
| `MhcPre.LayerIs` | vllm_musa/deepseek_v4_mhc.py:1018-1022 | the layer input is the rounded sum of the four copies by the pre-mix; normalised, it is divided by its root mean square, weighted and rounded |
| `MhcPre.BlockSums` | vllm_musa/deepseek_v4_jit/tilelang_kernels.py:1077-1102 | either kernel's column sums are the fallback's products and squares, for every split count |
| `MhcPre.StoreRow` | vllm_musa/deepseek_v4_jit/tilelang_kernels.py:1179-1191 | the threads write every element of the row |
| `MhcPre.LayerBlock` | vllm_musa/deepseek_v4_jit/tilelang_kernels.py:1119-1192 | the layer block leaves the weighted RMSNorm of the rounded layer input |
| `MhcPre.WarpRms` | vllm_musa/deepseek_v4_jit/tilelang_kernels.py:516-529 | the warp's root mean square is the fallback's |
| `MhcPre.MixesBlock` | vllm_musa/deepseek_v4_jit/tilelang_kernels.py:1192-1246 | the mixes block leaves the fallback's post mixes and combination matrix |
| `MhcPre.DelayedDecode` | vllm_musa/deepseek_v4_jit/tilelang_kernels.py:1019-1248 | for every split count and number of rounds: the fallback's mixes, the fallback's pre-mix for the next sublayer, and the normalised layer input of the carried pre-mix |
| `MhcPre.Decode` | vllm_musa/deepseek_v4_jit/tilelang_kernels.py:774-1013 | the same with the fallback's own pre-mix |
| `MhcPre.BigFuse` | vllm_musa/deepseek_v4_jit/tilelang_kernels.py:468-609 | the prefill kernel leaves the fallback's three outputs, for every split count, block and number of rounds |
| `MhcCache.CallAnswers` | vllm_musa/deepseek_v4_mhc.py:451-463 | one call: an answer is the current weight divided and repeated, and exactly when there is none |
| `MhcCache.RunCoherent` | vllm_musa/deepseek_v4_mhc.py:451-463 | every run of updates and calls keeps the cache coherent |
| `MhcCache.AnswersAreCurrent` | vllm_musa/deepseek_v4_mhc.py:438-467 | after any run an answered call gets the weight as last updated, for its own number of copies |
| `MhcCache.WarmedForCapture` | vllm_musa/deepseek_v4_mhc.py:443-446 | a call outside capture makes the captured call that follows succeed with the same weight |
| `MhcCache.Weight.FullWidth` | vllm_musa/deepseek_v4_mhc.py:449-463 | the method takes that step and no other |
| `MhcCache.Weight.Assign` | vllm_musa/deepseek_v4_mhc.py:451 | an in-place update bumps the version, which is all that coherence needs |
| `MhcCache.IdentityCache.PreMix` | vllm_musa/deepseek_v4_mhc.py:470-485 | as many rows selecting copy 0 as tokens; none only inside a capture that finds too few |
| `MhcCache.BroadcastInputs` | vllm_musa/deepseek_v4_mhc.py:438-467 | both inputs, current and of the right shape, and exactly when there are none |
| `MhcCache.MixSumOfOneCopy` | vllm_musa/deepseek_v4_mhc.py:444-446 | equal copies times the full-width weight give one copy's product with the narrow weight |
| `MhcCache.SquaresOfOneCopy` | vllm_musa/deepseek_v4_mhc.py:444-446 | the squares of equal copies add up to as many times those of one |
| `MhcCache.MixesOfOneCopy` | vllm_musa/deepseek_v4_mhc.py:442-446 | on equal copies the mean square and every mix are those of one copy with the narrow weight |
| `MhcCache.IdentitySelectsFirst` | vllm_musa/deepseek_v4_mhc.py:470-483 | the identity pre-mix selects copy 0 |
| `MhcCache.FirstLayer` | vllm_musa/deepseek_v4_mhc.py:302-321 | the fused first layer fed by the caches normalises copy 0 and sends out the narrow weight's pre-mix; it declines only inside a capture |
| `Fa3.IntegerCeiling` | vllm_musa/jit_kernel/fa3_metadata.py:48-51 | the integer form is the least whole number at or above n * 1.1 * heads / 60 |
| `Fa3.FloatCeiling` | vllm_musa/jit_kernel/fa3_metadata.py:48-51 | for any rounding with the relative error of binary32 the integer form is the ceiling of the rounded n * 1.1f * heads / 60, wherever n * heads is below 600 |
| `Fa3.GateCeiling` | vllm_musa/jit_kernel/fa3_metadata.py:48-51 | so the two agree for every length and geometry the gate admits |
| `Fa3.CapNeverBinds` | vllm_musa/jit_kernel/fa3_metadata.py:51-57 | for all block counts and KV heads the split cap never binds |
| `Fa3.SplitsCoverNoneEmpty` | vllm_musa/jit_kernel/fa3_metadata.py:51-58 | the splits cover all blocks and none starts past the last |
| `Fa3.BlockInOneSplit` | vllm_musa/jit_kernel/fa3_metadata.py:58 | every block is in one split, and in no other |
| `Fa3.HeadsFit` | vllm_musa/jit_kernel/fa3_metadata.py:59-80 | the heads kept in L2 fit, and twice as many would not |
| `Fa3.GateFitsL2` | vllm_musa/jit_kernel/fa3_metadata.py:105-116 | within the gate a split always fits, so the last resort never applies |
| `Fa3.BuildMetadata` | vllm_musa/jit_kernel/fa3_metadata.py:81-102 | the launch writes every field, and the cumulative lengths once |
| `Fa3.TryBuild` | vllm_musa/jit_kernel/fa3_metadata.py:148-182 | declines and touches nothing exactly outside the listed geometries, lengths and cap; else leaves the split count, the most heads that fit the budget of 96 or 48 blocks, and the cumulative lengths |
| `Thresholds.CollectedIsLast` | benchmarks/fused_moe/benchmark_dispatch_crossover.py:712-721 | a point holds exactly the last usable measurement of each backend |
| `Thresholds.RecordedIff` | benchmarks/fused_moe/benchmark_dispatch_crossover.py:712-721 | by the results' own fields: a measurement is held exactly when it is the last one of its backend and token count that is correct, without error and complete |
| `Thresholds.SafelyFasterIff` | benchmarks/fused_moe/benchmark_dispatch_crossover.py:723-740 | safely faster means measured, with a rival; by the margin below every rival's median and within it of its p95; and a spread within the ratio, its own and the fastest rival's |
| `Thresholds.OneSafelyFaster` | benchmarks/fused_moe/benchmark_dispatch_crossover.py:736-740 | two backends are never both safely faster at one token count |
| `Thresholds.GemvMax` | benchmarks/fused_moe/benchmark_dispatch_crossover.py:742-752 | the largest t such that every integer 1..t was measured and is safely faster |
| `Thresholds.SuffixIff` | benchmarks/fused_moe/benchmark_dispatch_crossover.py:756-767 | a suffix passes both tests if and only if every integer it spans was measured and is safely faster |
| `Thresholds.GroupedMin` | benchmarks/fused_moe/benchmark_dispatch_crossover.py:754-770 | the least measured start of such a suffix |
| `Thresholds.RecommendThresholds` | benchmarks/fused_moe/benchmark_dispatch_crossover.py:709-774 | both at once, for any results; and the two ranges never overlap |
| `Thresholds.NeverOverlap` | benchmarks/fused_moe/benchmark_dispatch_crossover.py:746-770 | a safe prefix ends before a safe suffix starts |

## Left out

- Rounding. `BlockGemm`, `BlockGemv`, `MhcPre` and `MhcCache` are over exact reals; `SplitK` and `MoeMma` leave the arithmetic uninterpreted. The narrowing of a finished sum when a GEMM or the MoE layer stores it is one more function of the value stated, and is not written out except in `BlockGemv` and `MhcPre`.
- `eliminate_dead_code` after lint in the all-reduce pass, which removes pure nodes without users.
- An epsilon that is a graph node or a string (the pass raises), and symbolic sizes (`int(size)` raises).
- A `getitem` whose index is a boolean, which Python would take for 0 or 1.
- Arguments nested in lists and dictionaries: a node's arguments are one flat list and one keyword map.
- The order of a node's users: it is a set, and every result holds for whichever user comes first.
- Inductor's pattern matcher and its registered patterns, fake-tensor evaluation beyond shape and dtype, the cache `uuid`, and device, dtype and contiguity gates that no proof uses.
- Tensor values are their elements in row-major order: reshaping is a view that keeps them, so the shapes of query and key views matter to the planners only where they test them.
- Two hoisted layer-name nodes may name the same layer: the planner cannot see it, and the model gives a layer by its node or its string.
- The native RoPE, RMSNorm, attention and fused presplit kernels: the fused operators mean norm, rotation and insertion, one after the other.
- Git, the filesystem, subprocesses, printing and argument parsing of `musa_sync`: commits, trees, object types and parsed diff sections are inputs. Merge commits and rename detection are out.
- The text helpers of `musa_sync` (slugs, headers, numbering, row merging, verdicts) and the field checks and lineage table of `patch_metadata`: they would only add easy members.
- The route map that a router attaches to its ids: it is assumed to satisfy `RouteMap.HoldsMap`. Expert ids are assumed distinct within a token.
- AllReduceLint.RunCollectives: the count is stated for a pass whose rewrites keep their readers behind them; a pass that lint would reject ends in an error, and its graph is thrown away.
- MoeMma.FusedMoe: the activation quantized by the router and the in-kernel quantization are one uninterpreted function of a token's group, so that both forms of the first kernel are one model.
- BlockGemv.MoeGemv: in-kernel quantization and SwiGLU are abstract; an activation has one value per column and one scale per group. The kernel that shares a weight tile across rows and the native GEMV are not modelled.
- The query side of the RoPE and KV insert kernel, and rotation and FP8 encoding as arithmetic: `KvInsert` stores them through abstract functions.
- KvInsert.Insert: the in-range slots of one batch are assumed distinct; two tokens on one slot would race.
- The TileLang KV pack: it floors a different quantity than the Triton insert, so the two are not equivalent for small values and no such claim is made.
- The split-K GEMM before the mHC kernels: its partials are assumed to add up to the products and squares (`GemmParts`). The fused post kernel, the split decode kernel and the RMSNorm-only kernels are not modelled.
- In-place updates of the weight are assumed to bump PyTorch's version counter, as they do except through `.data`.
- Two numbers near each other under rounding: `Thresholds` compares exact reals, and a zero median, which would divide by zero, is excluded as the callers' timings do.
- Fa3.BuildMetadata: the MATE scheduler that reads the metadata is not modelled; a split is the run of blocks its count and size describe.
- Platform glue, wrappers over native kernels, build scripts and C++ bindings.
