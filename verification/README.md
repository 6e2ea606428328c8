# Ollama: verified models of its trickiest components

A Dafny model of five parts of the Ollama server and importer, and proofs of what they promise:

- **Harmony** (`HarmonyHeaders`, `HarmonyParser`, `HarmonyChunking`, `HarmonyRoundTrip`,
  `FunctionNameMap`, `HarmonyHandler`, `HarmonyDelivery`, `HarmonyToolCalls`): the incremental tokenizer for the
  harmony chat format, the handler that routes its events, and the map that renames tools. The
  incremental form agrees with reading the whole text at once for every chunking and undoes a
  printer, and it is settled which part of a response that stops inside a message arrives and
  which tool calls come back under the user's own tool name.
- **Anthropic streaming** (`AnthropicTypes`, `StreamConverter`, `StreamRefinement`, `StreamLosses`,
  `WebSearchLoop`, `WebSearchWriter`, `WebSearchRuns`, `WebSearchUsage`, `WebSearchHandOver`): the
  state machine that turns chat chunks into message events, and the web-search writer that takes
  the stream over. Every run is one well-formed stream, the converter loses no text, token usage
  adds up, and it is settled for every run whether streaming agrees with the complete response and
  whether a search leaves the run's text whole.
- **Safetensors import** (`Tensors`, `Fp8Decode`, `Fp8Experts`; `SortedKeys`, `ImportPlan`,
  `ExpertNames`, `ExpertGroups`, `ExpertSlots`, `ExpertPlans`, `Fp8ExpertPlans`, `PlanUses`,
  `SourcePlans`, `BlockFp8Plans`, `PrequantPlans`, `PrequantUses`, `BlobWriter`, `PlanTyping`,
  `PlanPlacement`, `PlanNames`, `PrequantNames`, `Planner`, `PlanExecution`, `PlanDecoding`;
  `QuantPolicy`): the planner, the writer and the 128x128 block dequantization. A source is refused
  exactly if a group cannot be stacked or two outputs of the inventory would have one name. A plan
  reads every source tensor at exactly one place: a tensor of no group is copied, expert i of a
  group stands in slot i of its projection's only stack, and an FP8 weight is decoded, alone or in
  its slot, with its own scale. Its blobs are well typed; the writer accepts all of a float or
  block-FP8 plan, and of a prequantized one all but those with an unusable global scale.
- **Runner memory** (`RunnerMemory`, `RunnerAccounting`): the table of buffers reported in the
  runner's log, folded into totals in 64-bit arithmetic.
- **Devices and file names** (`GpuOverlap`, `GpuDevices`, `FileNames`): overlap marking and in-place
  renumbering of GPUs, and the common root from which uploaded files get their names.

`Text` and `Decimal` hold the string and number functions the others share. Objects the source
updates in place are classes; each method is proved against a specification function on values,
and whole-run properties are lemmas about those functions. Maps are walked in arbitrary order
unless the source sorts their keys.

Where the code does not do what its own comments say, or what its caller might expect, the code is
modelled and the exact condition is proved:

- `discover/runner.go:439` says the newest library version that supports all GPUs is used. Because
  `anyMissing` is never reset, the search ends at the oldest version as soon as two versions support
  different devices, so it honours this exactly if all support the same devices or only the oldest
  supports them all (`GpuOverlap.SettlesOnNewestCoveringIff`, `GpuOverlap.NewestCoveringIsPassedOver`).
  "Newest" is the code's own order, that of directory names as strings, in which v9 follows v13.
  No device is lost either way (`GpuDevices.RemoveOverlaps`).
- `create/create.go:168-170` says routing gates stay at source precision in every architecture.
  Three policies look for projection names, and one for an embedding shard's name, before asking
  the generic policy, so a gate whose name also contains one of those is quantized
  (`QuantPolicy.GatesKeptIff`, `QuantPolicy.GateCanBeQuantized`). The name in the latter is only one
  that the policy accepts; no checkpoint is known to use it.
- Resetting load accounting (`llm/llama_server.go:1131-1150`) clears the runner's totals but not the
  log writer's table, so the next buffer line brings the old buffers back
  (`RunnerAccounting.ResetIsUndone`). Later totals are those of a fresh accounting exactly if the old
  buffers that are not logged again add nothing to any of them
  (`RunnerAccounting.ResetStartsAfreshIff`, `RunnerAccounting.OldBytesReturn`).
- Tool calls that repeat an id, such as a second empty one, or whose arguments do not marshal are
  dropped from a stream but not from the complete response. A stream equals the complete response
  exactly if neither happens, thinking, text and calls come in this order, and the last response
  names the model asked for: the stream gives that name, the complete response the last one's
  (`StreamLosses.StreamingEqualsCompleteIff`, `StreamLosses.SecondEmptyIdIsLost`).
- Thinking that follows a closed thinking block is dropped from a stream
  (`StreamLosses.ThinkingKeptIff`, `StreamLosses.LateThinkingIsLost`); thinking that merely follows
  text is not.
- A response that stops inside a message with a start of the end tag, a mere `<` say, loses it: the
  parser holds it back and the handler never asks for the rest. Content and thinking arrive whole
  exactly if they do not end so (`HarmonyDelivery.FirstMessageCompleteIff`,
  `HarmonyDelivery.LessThanIsLost`), and the same condition decides whether the arguments of a tool
  call do (`HarmonyToolCalls.ToolCallComesBack`).
- Text that comes with a web search or while it runs is never written; the client gets the whole
  text of a run exactly if there is none (`WebSearchHandOver.AllTextArrivesIff`).
- A block-FP8 source with a group that has both FP8 experts and others is refused for a name clash
  unless the FP8 projections differ in precision: both parts become a blob with the group's name
  (`PlanNames.HalfFP8GroupClashes`).
- Stacking FP8 experts decides the fate of unusual shapes: experts with three axes decode alone but
  not stacked, a single one with one axis stacked but not alone. All others are decoded alike
  (`Fp8Experts.StackThenDecode`, `PlanDecoding.PlanDecodesWeights`).
- A compressed weight whose global scale is no single 32-bit float is planned, and refused only by
  the writer (`PlanExecution.PlanPassesIff`, `PlanExecution.Bf16ScaleIsRefused`).
- The tool name map loses a name exactly when an alias of `python` was added before `python`
  itself (`FunctionNames.NamesMapBackIff`, `FunctionNames.AliasLosesItsName`).
- The quantization metadata scan overlooks unquantized tensors that come first
  (`BlobWriter.NotMixedIff`, `BlobWriter.UnquantizedFirstIsOverlooked`); planned blobs never mix, so
  it does not matter there.

## Model

| member | source | states |
|---|---|---|
| HarmonyParsing.HarmonyParser.AddContent | harmony/harmonyparser.go:93-110 | one chunk leaves the state, the accumulator and the events that reading the accumulated text to the end gives; terminates because every continuing step consumes a whole tag |
| HarmonyParsing.HarmonyParser.Eat | harmony/harmonyparser.go:113-184 | one step of the three-state tokenizer, with the text it emits and the text it holds back |
| HarmonyParsing.FindOverlap | harmony/harmonyparser.go:244-252 | the downward search finds the longest end of the text that starts the tag |
| HarmonyParsing.OverlapIsLongest | harmony/harmonyparser.go:244-252 | a number is the overlap if and only if the text ends with a start of the tag of that length and of no greater one |
| HarmonyChunking.FeedSplit | harmony/harmonyparser.go:93-184 | from any state and accumulator, feeding a then b leaves the state, accumulator and joined events of feeding a+b |
| HarmonyChunking.ChunksAreOneFeed | harmony/harmonyparser.go:93-184 | any sequence of chunks acts as one feed of their concatenation |
| HarmonyChunking.ChunkInvariance | harmony/harmonyparser.go:93-184 | two ways of cutting one text give the same state, accumulator and joined events |
| HarmonyChunking.HoldsBackLeast | harmony/harmonyparser.go:143-184 | inside a message the text held back is exactly the longest suffix that may still become the end tag |
| HarmonyHeaderRoundTrip.HeaderRoundTrip | harmony/harmonyparser.go:186-241 | role, channel and recipient are recovered from every printed header, for each place the recipient may stand and each form of the constrain clause |
| HarmonyRoundTrip.PrintThenFeed | harmony/harmonyparser.go:113-252 | reading a printed conversation yields its messages in order and leaves nothing behind |
| HarmonyRoundTrip.RoundTrip | harmony/harmonyparser.go:93-252 | the same in every chunking |
| HarmonyRoundTrip.HandlerTagsWellTagged | harmony/harmonyparser.go:274-286 | the handler's own tags cannot overlap themselves |
| FunctionNames.FunctionNameMap.ConvertAndAdd | harmony/harmonyparser.go:476-485 | the returned name and both maps after an addition |
| FunctionNames.FunctionNameMap.OriginalFromConverted | harmony/harmonyparser.go:490-497 | the user name a harmony name was made from, or the name itself |
| FunctionNames.FunctionNameMap.DeriveName | harmony/harmonyparser.go:539-556 | the first free candidate, found within one more try than there are entries |
| FunctionNames.TriesBounded | harmony/harmonyparser.go:539-556 | k failed tries need k names in use, because numbered candidates differ |
| FunctionNames.NamesMapBackIff | harmony/harmonyparser.go:476-556 | after any additions every returned name maps back to its user name, if and only if no alias of python came before python |
| FunctionNames.DistinctNames | harmony/harmonyparser.go:476-556 | then different user names have different harmony names |
| FunctionNames.AliasLosesItsName | harmony/harmonyparser.go:476-485 | adding python! and then python loses the first |
| HarmonyHandler.HarmonyMessageHandler.AddContent | harmony/harmonyparser.go:289-334 | the content, thinking and tool text one chunk adds, and the mode it leaves |
| HarmonyHandler.HarmonyMessageHandler.Init | harmony/harmonyparser.go:393-427 | primes the parser with the last message, starts with an empty tool accumulator, changes nothing else of the handler's state, and renames the tools |
| HarmonyHandler.HarmonyMessageHandler.Add | harmony/harmonyparser.go:430-452 | one chunk's reply, with the tool call or error at the end |
| HarmonyHandler.HandleSplit | harmony/harmonyparser.go:289-334 | two texts in turn add up to their concatenation, in state and in routed text |
| HarmonyHandler.RouteJoined | harmony/harmonyparser.go:289-334 | where text is routed does not depend on how content events are cut |
| HarmonyHandler.ReplyIgnoresChunking | harmony/harmonyparser.go:430-452 | content, thinking, tool call and error of a response do not depend on chunking |
| HarmonyHandler.RenamingAddsTheNamed | harmony/harmonyparser.go:393-427 | renaming a list of tools adds exactly its named ones, in order |
| HarmonyHandler.UnnamedStay | harmony/harmonyparser.go:393-427 | unnamed tools keep their places |
| HarmonyToolCalls.ToolCallComesBack | harmony/harmonyparser.go:430-497 | a call to a registered tool comes back under the user's name with the arguments as written, in any chunking, if and only if the arguments are JSON and neither contain the end tag nor end with a start of it |
| HarmonyDelivery.OpenMessageDelivers | harmony/harmonyparser.go:154-168 | a response that stops inside a message delivers that message up to the longest end that may still become the end tag, in any chunking |
| HarmonyDelivery.OpenMessageCompleteIff | harmony/harmonyparser.go:430-452 | all of an open content or thinking message arrives if and only if it does not end with a start of the end tag |
| HarmonyDelivery.FirstMessageCompleteIff | harmony/harmonyparser.go:430-452 | the same for the first message of a response, from its header on |
| HarmonyDelivery.LessThanIsLost | harmony/harmonyparser.go:154-168 | a final message that stops at a less-than sign loses it |
| AnthropicTypes.UsageFromMetrics | anthropic/anthropic.go:226-240 | uncached and cache-read tokens add up to the prompt tokens and neither is negative |
| StreamProtocol.WellFormedShape | anthropic/anthropic.go:743-1013 | a well-formed stream has one start first and one stop last, and blocks 0, 1, 2, ... each closed before the next opens |
| StreamConverters.StreamConverter.Process | anthropic/anthropic.go:776-1013 | the events for one response and the state after it |
| StreamConverters.ProcessKeepsProtocol | anthropic/anthropic.go:776-1013 | one response keeps the client in step with the converter, or ends the stream if it was the last |
| StreamConverters.RunInProgress | anthropic/anthropic.go:776-1013 | an unfinished run is the start of a well-formed stream |
| StreamConverters.EveryRunIsWellFormed | anthropic/anthropic.go:743-1013 | every run in which only the last response is done emits one well-formed stream |
| StreamRefinement.NoTextIsLost | anthropic/anthropic.go:776-1013 | the text deltas join to all content of the run |
| StreamRefinement.OneBlockPerToolId | anthropic/anthropic.go:776-1013 | each id whose arguments marshal gets exactly one tool block, and no other id gets one |
| StreamRefinement.StreamingRefinesComplete | anthropic/anthropic.go:684-1013 | accumulating the events of an in-order run gives the complete response of the merged run, id, stop reason and usage included, with its announced calls and the model asked for, for every cut into chunks |
| StreamRefinement.AnnounceAllIff | anthropic/anthropic.go:776-1013 | no call is dropped if and only if ids differ and arguments marshal |
| StreamLosses.ThinkingKeptIff | anthropic/anthropic.go:776-1013 | for every run the thinking deltas join to all its thinking if and only if no response brings thinking after a thinking block was opened and then closed by content or a call with a new id |
| StreamLosses.LateThinkingIsLost | anthropic/anthropic.go:776-1013 | thinking, content, thinking: the last is lost |
| StreamLosses.OrderForced | anthropic/anthropic.go:776-1013 | a client that sees thinking, text and calls in this order, with nothing lost, was sent them in this order |
| StreamLosses.StreamingEqualsCompleteIff | anthropic/anthropic.go:684-1013 | for every run done only at the end, the accumulated stream equals the complete response of the merged run if and only if thinking precedes text and calls, text precedes calls, all tool ids differ, all arguments marshal and the last response names the model asked for |
| StreamLosses.SecondEmptyIdIsLost | anthropic/anthropic.go:776-1013 | of two calls with the empty id only the first is streamed, and the stream differs from the complete response |
| WebSearchLoop.FindWebSearchToolCall | middleware/web_search.go:57-73 | the first web_search call, and whether there are other calls |
| WebSearchLoop.RunWebSearchLoop | middleware/anthropic.go:221-374 | the outcome and follow-ups of the search loop |
| WebSearchLoop.LoopUsage | middleware/anthropic.go:221-374 | whatever the outcome, its usage is the initial usage plus that of every follow-up, and the rounds are bounded |
| WebSearchLoop.AnswerPairsSearches | middleware/anthropic.go:221-374 | the answer has one search and result pair per round, followed by the final response or one refused search |
| WebSearchLoop.SearchIDsDiffer | middleware/anthropic.go:508-516 | searches of different rounds have different ids |
| WebSearchWriters.WebSearchAnthropicWriter.Write | middleware/anthropic.go:138-219 | the whole state after one upstream body |
| WebSearchWriters.WebSearchAnthropicWriter.StartLoopWorker | middleware/anthropic.go:376-402 | the usage base and the pending result |
| WebSearchWriters.WebSearchAnthropicWriter.WriteLoopResult | middleware/anthropic.go:404-427 | the terminal events for the loop's outcome |
| WebSearchWriters.WebSearchAnthropicWriter.ApplyObservedUsageDelta | middleware/anthropic.go:429-455 | usage grows by what was observed since the loop began, never shrinks |
| WebSearchWriters.WebSearchAnthropicWriter.WritePassthroughStreamChunk | middleware/anthropic.go:522-551 | the converter's events go out and the shadow fields follow them |
| WebSearchWriters.WebSearchAnthropicWriter.WriteTerminalResponse | middleware/anthropic.go:656-702 | closes the open block, writes the response's blocks and ends the stream |
| WebSearchRuns.TrackFollows | middleware/anthropic.go:522-551 | the shadow fields match the client's open block and next index after any events |
| WebSearchRuns.TerminalFinishes | middleware/anthropic.go:553-702 | from wherever the shadow says the client is, the terminal events finish the stream |
| WebSearchRuns.StepSynced | middleware/anthropic.go:138-219 | every input and every service answer keeps the stream in protocol; it has ended exactly if it had, or the last response arrived |
| WebSearchRuns.NothingAfterTheEnd | middleware/anthropic.go:138-155 | after the terminal events nothing reaches the client |
| WebSearchRuns.EveryServedStreamIsWellFormed | middleware/anthropic.go:138-702 | with searches at any point and any outcome the client gets one well-formed stream, and the shadow agrees with the converter until then |
| WebSearchUsage.AddFollowUpsTotals | middleware/anthropic.go:316-322 | adding follow-ups neither loses nor invents tokens |
| WebSearchUsage.RecordAllIsLargest | middleware/anthropic.go:433-441 | the observed counts are the largest seen |
| WebSearchUsage.SearchUsageReported | middleware/anthropic.go:404-470 | reported output is the largest eval count plus the follow-ups; reported prompt tokens exceed the largest prompt count plus the follow-ups by exactly the shrinkage of the uncached part |
| WebSearchUsage.SearchInLastReported | middleware/anthropic.go:376-470 | the same without excess when the search comes in the last response |
| WebSearchHandOver.PassesThrough | middleware/anthropic.go:522-551 | until a search the client gets exactly what the bare converter emits |
| WebSearchHandOver.SilentInFlight | middleware/anthropic.go:138-219 | while a loop is in flight nothing is written |
| WebSearchHandOver.SearchRunText | middleware/anthropic.go:138-427 | the client's text is the content before the search followed by the text of the loop's answer |
| WebSearchHandOver.SearchInLastText | middleware/anthropic.go:138-427 | the same when the last response is the one that searches |
| WebSearchHandOver.AllTextArrivesIff | middleware/anthropic.go:138-427 | the client's text is all content of the run followed by the answer's text if and only if no content came with the search or after it |
| WebSearchHandOver.AllTextArrivesAtEndIff | middleware/anthropic.go:138-427 | the same when the last response is the one that searches |
| Fp8Decode.DecodePointwise | create/quantize.go:216-275 | entry [e,i,j] of the decoded weight is decode(w[e,i,j]) times scale[e,i/128,j/128] for all 2D and 3D shapes, and the shape is kept |
| Fp8Decode.DecodeSucceedsIff | create/quantize.go:221-246 | decoding succeeds exactly on 2D and 3D weights with one scale per 128x128 block |
| Fp8Experts.StackExpertTensors | create/transform.go:57-74 | fails exactly on no source or on differing types; otherwise the data back to back |
| Fp8Experts.StackSlot | create/transform.go:57-74 | slot e of a row-major stack is expert e, element for element |
| Fp8Experts.StackThenDecode | create/quantize.go:216-275 | stacking and then decoding does in slot e what decoding expert e with its own scale does, success or failure, if and only if the shapes are not among those whose fate stacking decides: three axes that fit, or a single expert with one axis |
| SortedKeys.SortedLists | create/plan.go:321-332 | the keys in order, each once |
| ExpertNames.ParsesIffPrinted | create/plan.go:247-271 | a name parses to a slot if and only if it is the slot's printed form with a canonical index |
| ExpertNames.NamesDecideSlots | create/plan.go:247-271 | no two slots have one name |
| ExpertGroups.GroupByProjection | create/plan.go:177-190 | files every expert under its projection and index, or refuses |
| ExpertGroups.GroupingFiles | create/plan.go:177-190 | refuses exactly if a name does not parse or comes twice; otherwise the table holds each tensor in the slot its name spells out and nothing else |
| ExpertGroups.DuplicateIsUnreachable | create/plan.go:186-188 | with distinct names the duplicate-index error cannot happen |
| ExpertGroups.ValidateExpertProjections | create/plan.go:273-294 | succeeds exactly if all projections cover 0 to N-1 for one N, which it returns |
| ExpertGroups.Pigeonhole | create/plan.go:278-284 | n keys that include 0 to n-1 are nothing but those |
| ExpertPlans.PlanExpertGroup | create/plan.go:172-226 | succeeds exactly on stackable groups; slot i of each stack is the tensor named group.i.projection.weight |
| ExpertPlans.HomogeneousExpertBlobs | create/plan.go:228-245 | one blob if all precisions agree, else one per projection |
| Fp8ExpertPlans.PlanFP8ExpertGroup | create/blockfp8.go:89-158 | succeeds exactly on stackable groups with scales; sources are N weights in slot order, then their N scales in the same order |
| Fp8ExpertPlans.ScalesDiffer | create/blockfp8.go:171-180 | two weights never share a scale |
| PlanUses.GroupUses | create/plan.go:172-226 | a planned group reads each member exactly once |
| PlanUses.Fp8GroupUses | create/blockfp8.go:89-158 | a planned FP8 group reads each weight and each scale exactly once |
| SourcePlans.GroupsAreRight | create/plan.go:138-147 | a group holds exactly the names that map to it |
| SourcePlans.PlanFloat | create/plan.go:135-170 | fails exactly if some group cannot be stacked; otherwise every source tensor is read exactly once, only tensors of no group are copied, and every other blob is one of a group's stacks |
| BlockFp8Plans.PlanBlockFP8 | create/blockfp8.go:9-87 | the same, and neither FP8 weights nor their scales are copied: every blob that is no copy and no float stack decodes a lone weight with its scale or stacks of a group's weights and scales |
| PlanPlacement.OnePlace | create/plan.go:135-170 | a source that a plan uses once is source i of tensor k for exactly one k and i |
| PlanPlacement.FloatPlacement | create/plan.go:135-226 | every tensor of a float source has exactly one place: copied if it is in no group, otherwise in the slot of its projection's stack that its name spells out |
| PlanPlacement.FloatStacks | create/plan.go:172-226 | every projection of every group has exactly one stack, with one slot for each expert |
| PlanPlacement.FP8Placement | create/blockfp8.go:9-158 | every tensor of a block-FP8 source has exactly one place: copied, stacked, decoded alone, decoded in its slot, or as the scale behind its weight |
| PlanPlacement.WeightWithScale | create/blockfp8.go:9-158 | every FP8 weight is a source of exactly one tensor, which decodes it and which alone reads its scale, half the sources further on |
| PlanPlacement.DecodeStacks | create/blockfp8.go:89-158 | every projection of every FP8 group has exactly one decoded stack |
| BlockFp8Plans.RoutesPartition | create/blockfp8.go:14-87 | copied tensors, members of groups and weights with their scales are all tensors, each once |
| PrequantPlans.MatchPrequant | create/prequant.go:104-168 | the fused blob and consumed companions of the first matching pattern |
| PrequantPlans.PlanPrequantized | create/prequant.go:71-102 | in name order, a fused blob, nothing for a companion, or a copy |
| PrequantUses.ExtUnique | create/prequant.go:13-15 | companion names split uniquely at their last dot |
| PrequantUses.PrequantLinear | create/prequant.go:71-168 | if matched weights have bases of their own, every tensor is read exactly once, except activation scales, which are not read |
| PrequantUses.PatternsOk | create/prequant.go:36-69 | the three producers' tables have the suffix shapes this needs |
| BlobWriter.BlobNeedsMLX | create/writer.go:177-187 | whether some tensor is quantized or decoded |
| BlobWriter.PrepareBlob | create/writer.go:71-126 | succeeds exactly if every tensor passes its path; each tensor goes through the transform its path applies, and metadata is kept on the byte path |
| BlobWriter.ScanQuantizations | create/quantize.go:49-67 | a mix is found exactly if a tensor after a quantized one disagrees with it |
| BlobWriter.NotMixedIff | create/quantize.go:49-67 | no mix is found exactly for unquantized tensors followed by tensors of one quantization |
| BlobWriter.UnquantizedFirstIsOverlooked | create/quantize.go:49-67 | an unquantized tensor is noticed behind a quantized one but not ahead of it |
| PlanTyping.WellTypedPasses | create/writer.go:128-170 | the writer refuses a tensor of a well-typed blob exactly if it is a global scale that is no single 32-bit float, or has no reciprocal where the reciprocal is stored |
| PlanTyping.WellTypedUnmixed | create/quantize.go:49-74 | the metadata scan never sees a mix, and the quantization it records is every tensor's |
| PlanTyping.FromGroupTyped | create/plan.go:172-245 | blobs of stacked groups are well typed |
| PlanTyping.FromFp8GroupTyped | create/blockfp8.go:89-158 | blobs of decoded groups are well typed |
| PlanTyping.FuseTyped | create/prequant.go:108-168 | fused blobs are well typed and never take the path that ignores metadata |
| Planner.CheckOutputCollisions | create/plan.go:113-133 | passes exactly if all blob names and all tensor names differ |
| Planner.Plan | create/plan.go:83-111 | refuses a source exactly if a group cannot be stacked or, by the inventory, two outputs would have one name; otherwise the plan reads every source tensor exactly once but for ignored scales, names every output once, every blob is well typed, and the tensors of float and block-FP8 sources are placed as in PlanPlacement |
| PlanNames.ServedApart | create/plan.go:113-133 | planned items that read every source once have distinct names if and only if the outputs the sources become part of have |
| PlanNames.OneQuantizationIff | create/plan.go:228-245 | the stacks of a group share a blob exactly if its experts call for one precision |
| PlanNames.FloatNamesIff | create/plan.go:113-170 | a float plan's names are distinct if and only if different tensors, stacks and groups of the inventory have different names |
| PlanNames.FP8NamesIff | create/blockfp8.go:9-87 | the same for a block-FP8 plan, decoded and float stacks and groups told apart |
| PlanNames.HalfFP8GroupClashes | create/blockfp8.go:72-86 | a group with FP8 and other experts clashes with itself if its FP8 stacks have one precision |
| PrequantNames.PrequantNamesIff | create/prequant.go:71-168 | a prequantized plan's names are distinct if and only if matched weights have bases of their own and no copied tensor has a name that fusing makes |
| PlanExecution.PlanPassesIff | create/writer.go:71-126 | the writer accepts every blob of a float or block-FP8 plan, and every blob of a prequantized one if and only if all global scales of matched weights are single 32-bit floats, with a reciprocal where it is stored |
| PlanExecution.Bf16ScaleIsRefused | create/create.go:462-480 | a compressed weight with a BF16 global scale is planned in well-typed blobs and refused by the writer |
| PlanDecoding.StackInput | create/writer.go:144-159 | the writer hands over weights and scales stacked whole, under the names the loader looks up |
| PlanDecoding.PlannedStackDecodes | create/blockfp8.go:122-156 | slot e of a planned stack decodes as the tensor named group.e.projection.weight with its own scale does, exactly but for those shapes |
| PlanDecoding.PlanDecodesWeights | create/blockfp8.go:9-158 | in a plan of a block-FP8 source each FP8 weight is read, with its own scale, by exactly one tensor; what that decodes, whole or in the slot the name spells out, is the decoding of that weight alone, always for a weight of no group and for an expert exactly but for those shapes |
| RunnerMemory.DevicesAddUp | llm/llama_server.go:2842-2873 | the GPU bytes are the bytes of all devices together |
| RunnerMemory.TotalsConsistent | llm/llama_server.go:2842-2873 | if the buffers fit in 64 bits no total wraps, and GPU plus CPU-mapped bytes stay within the total |
| RunnerAccounting.Runner.MemorySize | llm/llama_server.go:2660-2700 | the trim never underflows, and the GPU share never exceeds the total, also when fully offloaded and when falling back to the file size |
| RunnerAccounting.Runner.GetDeviceInfos | llm/llama_server.go:2617-2658 | free memory is the most that neither the own accounting nor the driver's report rules out, without wrapping |
| RunnerAccounting.Runner.ResetLoadAccounting | llm/llama_server.go:1131-1150 | clears the runner's fields but not the number of layers |
| RunnerAccounting.MemoryParsingWriter.AddUp | llm/llama_server.go:2842-2873 | one pass in any order gives the sums modulo 2^64, in total and per device |
| RunnerAccounting.MemoryParsingWriter.Write | llm/llama_server.go:2793-2840 | the whole state after one log write |
| RunnerAccounting.RunKeepsAccounting | llm/llama_server.go:2793-2873 | after any log lines and resets the totals are consistent |
| RunnerAccounting.TableHoldsLast | llm/llama_server.go:2822-2836 | the table holds the last size logged for each component, backend and kind |
| RunnerAccounting.ResetIsUndone | llm/llama_server.go:1131-1150 | a reset does not outlast the next buffer line |
| RunnerAccounting.ResetStartsAfreshIff | llm/llama_server.go:1131-1150 | after a reset and any further lines and resets all totals are those of an empty table exactly if no size was logged since or the old buffers not logged again add nothing to any total or device |
| RunnerAccounting.TotalsSameIff | llm/llama_server.go:2842-2873 | the total, the GPU, file-backed and CPU-mapped bytes each stay as they were exactly if the left-over buffers they would count sum to zero modulo 2^64, and all totals together exactly if this holds for each and no device is added |
| RunnerAccounting.LeftoverIs | llm/llama_server.go:2822-2836 | the left-over buffers are the old ones whose keys the later lines do not mention |
| RunnerAccounting.AddsNothingIff | llm/llama_server.go:2842-2873 | while they fit in 64 bits, left-over buffers add nothing exactly if each is empty and on a device the later buffers use too, or on none |
| RunnerAccounting.OldBytesReturn | llm/llama_server.go:1131-1150 | five bytes before a reset and seven after it are reported as twelve |
| GpuOverlap.FindNewest | discover/runner.go:438-467 | the directory the search settles on |
| GpuOverlap.SettlesOnNewestCoveringIff | discover/runner.go:438-467 | if some directory supports all devices, the newest such one, in string order, is settled on if and only if all directories support the same devices or only the oldest supports them all |
| GpuOverlap.NewestCoveringIsPassedOver | discover/runner.go:438-467 | v13 with devices 0 and 1 is passed over for v12 with device 0 |
| GpuOverlap.FilterOverlapByLibrary | discover/runner.go:438-486 | marks exactly the devices that the directory settled on also supports, and leaves other marks alone |
| GpuOverlap.MarkedIff | discover/runner.go:468-485 | an entry is marked exactly if it is outside that directory and the directory has its ID |
| GpuOverlap.LastCopyStays | discover/runner.go:438-486 | the last copy of a library and ID is never removed |
| GpuDevices.RemoveOverlaps | discover/runner.go:182-207 | marking, deleting and renumbering leave, for every library and ID that was still supported, a device that was filed under them |
| GpuDevices.CompactDevices | discover/runner.go:186-207 | the in-place delete-and-renumber loop |
| GpuDevices.CompactedIs | discover/runner.go:186-207 | exactly the unmarked devices remain, in order, each renumbered by the count of earlier survivors of its library |
| GpuDevices.NumbersDiffer | discover/runner.go:186-207 | numbered devices of one library get different numbers |
| GpuDevices.FilterKeepsOldNumber | discover/runner.go:589-605 | a numbered device is then filtered by its old number or the user's name for it |
| FileNames.CommonFileRoot | cmd/cmd.go:477-516 | for two or more files the deepest directory above all of them, in any order of iteration |
| FileNames.DeepestIsOne | cmd/cmd.go:477-516 | there is only one such directory |
| FileNames.CreateRequestFileNames | cmd/cmd.go:459-475 | every name leads from the common root back to its file; a single file gets its base name |
| FileNames.NamesDistinct | cmd/cmd.go:459-475 | different files get different names |
| QuantPolicy.NewLaguna | create/laguna.go:20-53 | the dense layers and the number of layers read from the configuration |
| QuantPolicy.PolicySound | create/quantpolicy.go:57-91 | every policy, drafts included, answers for every tensor with source precision, the requested type or the 8-bit type of its family, so never with less precision, and only where the quantizer's groups tile the last dimension |
| QuantPolicy.EveryThirdLayer | create/quantpolicy.go:36-55 | between the first and the last eighth of the layers exactly every third is promoted |
| QuantPolicy.NormalizeNameOf | create/create.go:118-135 | normalizing a canonical name gives it back |
| QuantPolicy.GatesKeptIff | create/create.go:168-176 | a routing gate stays at source precision exactly unless its name also contains one that its policy looks for first |
| QuantPolicy.GateCanBeQuantized | create/gemma4.go:42-63 | such a name |

## Left out

- HTTP, server-sent event framing, JSON encoding and marshalling errors of writes: writes succeed and JSON arguments are opaque text.
- Logging, tracing, timeouts, retries and cancellation.
- The search worker's goroutine: its result depends only on values fixed when it starts, so it is computed there and delivered later.
- Text is a sequence of characters; bytes of incomplete UTF-8 sequences, and case mapping beyond ASCII, are not modelled.
- Regular expressions: the layer prefix of an expert group and the layer index in a name are parameters; log lines arrive as the records they matched.
- FunctionNames.NamesMapBackIff: whether a character is a letter or digit is a parameter, for all of Unicode.
- Widths of shapes: dimensions are natural numbers, so neither negative dimensions nor expert counts beyond 32 bits, nor products of dimensions beyond 64 bits.
- Values: FP8 decoding, multiplication, conversion and reciprocals are uninterpreted; only shapes and places are exact.
- Quantization itself and everything else MLX does, reading and caching of shard files, and errors of file access.
- Reading the inventory, classification of the source kind, and the output prefix of draft models.
- RunnerAccounting.MemoryParsingWriter.Write: the layer overflow counter is an unbounded integer, and sizes arrive already converted from mebibytes.
- RunnerAccounting.Runner.MemorySize: takes the model file's size as a parameter and asks for consistent totals, which every run provides while the buffers fit in 64 bits.
- GpuDevices.CompactDevices: the pairwise removal of duplicate devices that follows is not modelled; its comparison is not transitive.
- FileNames.CommonFileRoot: one volume with cleaned absolute paths; errors of finding the absolute path and volumes of other systems are not modelled.
- QuantPolicy.PolicySound: takes the requested type in normalized form; configuration parsing other than Laguna's is not modelled.
- Context shifting and prompt limits of the runner, which would add only easy members.
