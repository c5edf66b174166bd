# nanoleaf-aurora core, modelled in Dafny

This project models the sequential core of the nanoleaf-aurora Java library and of the
mDNS resolver (hola) it bundles, and proves properties of that model. The model covers:

- **mDNS service browsing.** `Query` is modelled as a class that holds the asked questions,
  the collected records, the joined multicast groups and a log of sent datagrams. `ask`
  removes duplicate questions. `fetchMissingRecords` follows the PTR → SRV/TXT → A/AAAA
  browse chain of sections 4 and 12 of RFC 6763. The listen loop handles received datagrams,
  and instances are built from the PTR records that answer the initial question.
  `UnknownRecord` skips the RDATA of an unknown resource record, as section 4.1.3 of RFC 1035
  lays it out. It reads from a `ByteBuffer` class with a real backing array.
- **The animation-data text.** The parsers read it: `CustomAnimDataParser` and
  `StaticAnimDataParser`. The builders write it: `CustomEffectBuilder.build`,
  `StaticEffectBuilder.build`, `Effect.createStaticEffect` and
  `Effect.Animation.createAnimation`. Both are modelled on a token layer (`seq<int>`) and on
  the text itself (`String.split`, `Integer.parseInt`, `Integer.toString`). Round trips are
  proved from what the builders write to what the parsers read.
- **`Frame` and `Panel`.** `Frame` is an immutable value. A datatype models it: its getters
  are the datatype's destructors, and field-wise `equals` is a function. `Panel` is a class
  with setters. `getNeighbors` is a loop over an array, and its neighbour distance test has
  an exact integer form.
- **Effects.** The local `io.github.rowak.Effect` is modelled with its field-by-field `toJSON`
  and `paletteToJSON` (proved against the keys each animation type gets), its `fromJSON`
  defaults and its `Animation` inner class. `nanoleafapi.Effect` is modelled as a property map
  with defaults, range properties, plugin options, and anim-type and direction names.
  `PluginOptions` is modelled with its name filter and getter defaults.
- **`AuroraMetadata`.** It is modelled with the fixed-offset slicing of an SSDP reply. The
  read-back of the fields is proved for replies laid out as the device sends them whose
  leading header text has none of the letters 'L', 'v' and 'm', whose host and port have
  none of ':', 'v' and 'm', and whose device id has no 'm' (a head with
  `CACHE-CONTROL: max-age=…` is outside it).
- **The schedule encoders.** These are `Schedule` with its date conversion, `ScheduleAction`,
  `ScheduleRepeat` and `ScheduleEffects` with their integer code tables, and
  `ScheduleBuilder`.

JSON values are a datatype (`Json`), and objects are finite maps. A `Date` is the record of
its five Calendar fields. Java `int` is the subset type `Int32`; `int` arithmetic that can
wrap is written with `Wrap32`. A Java `null` is `None`. An exception is an `Err` or `Throws`
value naming its class.

## Model

| member | source | states |
|---|---|---|
| MdnsQuery.Query.constructor | src/net/straylightlabs/hola/sd/Query.java:87-94 | A new query has asked nothing, holds no records or instances, has joined no group and has sent nothing; the state invariant holds. |
| MdnsQuery.Query.OpenSocket | src/net/straylightlabs/hola/sd/Query.java:163-184 | A group is used exactly when joining it succeeded (or it was already used). The result reports failure, the IOException, exactly when neither group is used. |
| MdnsQuery.SendsOf | src/net/straylightlabs/hola/sd/Query.java:128-134 | A new question goes out once for each joined group: 0, 1 or 2 datagrams. |
| MdnsQuery.SendsOfMembers | src/net/straylightlabs/hola/sd/Query.java:128-134 | The datagrams of a new question are exactly that question on IPv4 if IPv4 is used and on IPv6 if IPv6 is used, none repeated. |
| MdnsQuery.Query.Ask | src/net/straylightlabs/hola/sd/Query.java:123-135 | An already asked question changes nothing and sends nothing. A new one joins the asked set and is appended to the log once per joined group. The log stays exactly "each asked question on each joined group, once". |
| MdnsQuery.Query.SentBound | src/net/straylightlabs/hola/sd/Query.java:123-135 | Under the log invariant, the number of datagrams sent is the number of asked questions times the number of joined groups, so at most twice the number of questions. |
| MdnsQuery.SentCount | src/net/straylightlabs/hola/sd/Query.java:123-135 | A repeat-free log that holds exactly the asked questions on the joined groups has length \|questions\| per joined group. |
| MdnsQuery.Query.JoinedCount | src/net/straylightlabs/hola/sd/Query.java:129-134 | There are at most two groups, and none exactly when neither flag is set. |
| MdnsQuery.SrvCountZero | src/net/straylightlabs/hola/sd/Query.java:247-254 | The stream count of SRV records named after the PTR target is 0 exactly when no such record exists. |
| MdnsQuery.TxtCountZero | src/net/straylightlabs/hola/sd/Query.java:256-263 | The same for TXT records. |
| MdnsQuery.AddressCountZero | src/net/straylightlabs/hola/sd/Query.java:265-272 | The same for A and AAAA records named after the SRV target. |
| MdnsQuery.Query.FetchMissingSrvRecordsFor | src/net/straylightlabs/hola/sd/Query.java:247-254 | The question (ptrName, SRV, IN) is added exactly when no SRV record has that name (querySrvRecordFor, lines 274-277). Nothing else is asked, the records are not touched and the log only grows. |
| MdnsQuery.Query.FetchMissingTxtRecordsFor | src/net/straylightlabs/hola/sd/Query.java:256-263 | The question (ptrName, TXT, IN) is added exactly when no TXT record has that name (lines 279-282). |
| MdnsQuery.Query.FetchMissingAddressRecordsFor | src/net/straylightlabs/hola/sd/Query.java:265-272 | Both (target, A, IN) and (target, AAAA, IN) are added exactly when no A or AAAA record has the SRV's target name (queryAddressesFor, lines 284-289). |
| MdnsQuery.SrvTxtMissingAdd | src/net/straylightlabs/hola/sd/Query.java:238-241 | The questions the PTR loop owes grow, for one more PTR, by exactly that PTR's SRV and TXT questions. |
| MdnsQuery.AddressMissingAdd | src/net/straylightlabs/hola/sd/Query.java:242-244 | The questions the SRV loop owes grow, for one more SRV, by exactly its address questions. |
| MdnsQuery.Query.FetchForPtrs | src/net/straylightlabs/hola/sd/Query.java:238-241 | After the loop over the PTR records, the asked set has grown by exactly the SRV and TXT questions those PTRs still need. |
| MdnsQuery.Query.FetchForSrvs | src/net/straylightlabs/hola/sd/Query.java:242-244 | After the loop over the SRV records, the asked set has grown by exactly the A/AAAA questions those SRVs still need. |
| MdnsQuery.Query.FetchMissingRecords | src/net/straylightlabs/hola/sd/Query.java:237-245 | The record set is not changed (not in the modifies clause). The asked set grows by exactly the questions the records are missing. When nothing new is asked, nothing is sent. |
| MdnsQuery.MissingCovers | src/net/straylightlabs/hola/sd/Query.java:238-244 | Once the missing questions are asked, every PTR p has an SRV record named p.ptrName or (p.ptrName, SRV, IN) is asked, and likewise for TXT. Every SRV s has an A/AAAA record named s.target, or both address questions are asked. |
| MdnsQuery.NothingMissing | src/net/straylightlabs/hola/sd/Query.java:237-272 | When every dependency is present, no question is missing, so fetchMissingRecords asks and sends nothing. |
| MdnsQuery.MissingExplained | src/net/straylightlabs/hola/sd/Query.java:274-289 | Every question fetchMissingRecords asks names the ptrName of a PTR record or the target of an SRV record in the set. |
| MdnsQuery.ExplainedGrows | src/net/straylightlabs/hola/sd/Query.java:213 | More records keep every asked question accounted for. |
| MdnsQuery.Query.HandleDatagram | src/net/straylightlabs/hola/sd/Query.java:206-218 | A datagram that fails to parse, or does not answer the asked questions, changes nothing. A relevant one adds exactly its records (union) and then asks exactly the missing questions. A response with no new record asks and sends nothing. Afterwards every asked question is the initial one or names a PTR/SRV target, and nothing is missing unasked. |
| MdnsQuery.RecordsOfMembers | src/net/straylightlabs/hola/sd/Query.java:206-218 | The records collected from a run of datagrams are exactly the records of the relevant, parsed responses among them. |
| MdnsQuery.ListenLength | src/net/straylightlabs/hola/sd/Query.java:199-225 | The listen loop consumes the datagrams up to and including the first receive timeout, or all of them. |
| MdnsQuery.ExitsAtUnique | src/net/straylightlabs/hola/sd/Query.java:199 | Only one number of consumed datagrams meets the loop's exit condition. |
| MdnsQuery.Query.CollectResponses | src/net/straylightlabs/hola/sd/Query.java:192-231 | The loop consumes exactly ListenLength(events) datagrams. Its records are the old ones plus those of the relevant responses among them, the state invariant is kept and the log only grows. |
| MdnsQuery.InstancesOfAnswers | src/net/straylightlabs/hola/sd/Query.java:291-294 | An instance is built exactly for each PTR record that the initial question is answered by, from that PTR and all the records, one per PTR. |
| MdnsQuery.Query.BuildInstances | src/net/straylightlabs/hola/sd/Query.java:291-294 | The instances grow by exactly the instances of the answering PTR records. |
| MdnsQuery.Query.AskInitial | src/net/straylightlabs/hola/sd/Query.java:111 | The initial question is the only asked question and is sent once per joined group. |
| MdnsQuery.Query.RunOnce | src/net/straylightlabs/hola/sd/Query.java:102-121 | Joining no group is an IOException with nothing sent. Otherwise the instances returned are those of the answering PTRs among the records of the consumed datagrams. The initial question was asked and sent first on every joined group, and the state invariant holds. |
| DnsUnknownRecord.ByteBuffer.Remaining | src/net/straylightlabs/hola/dns/UnknownRecord.java:31 | remaining() is the distance from the position to the limit. |
| DnsUnknownRecord.ByteBuffer.Wrap | src/net/straylightlabs/hola/dns/UnknownRecord.java:28-32 | A wrapped buffer holds the bytes, with the position at 0 and the limit at the end. |
| DnsUnknownRecord.ByteBuffer.Get | src/net/straylightlabs/hola/dns/UnknownRecord.java:31 | With fewer than dst.length bytes remaining, get(dst) is a BufferUnderflowException that moves nothing. Otherwise dst receives the next bytes and the position advances by dst.length. |
| DnsUnknownRecord.CreateUnknownRecord | src/net/straylightlabs/hola/dns/UnknownRecord.java:28-32 | A negative length is a NegativeArraySizeException, and fewer than length remaining bytes is a BufferUnderflowException; in both cases the position does not move. Otherwise the position advances by exactly length. The contents and limit never change, and the record keeps the name, class and TTL it was given, none of the skipped bytes. |
| AnimData.ParseAll | src/io/github/rowak/CustomAnimDataParser.java:89-92 | Every token is parsed by Integer.parseInt; the result holds their values in order, or NumberFormatException exactly when one token is not an int. |
| AnimData.DataTokens | src/io/github/rowak/CustomAnimDataParser.java:87-92 | The integers after the first space-separated field: one fewer than there are fields. The failures are a NegativeArraySizeException and a NumberFormatException. |
| AnimData.DataTokensIgnoreFirst | src/io/github/rowak/CustomAnimDataParser.java:87-92 | The first field (the panel count) is dropped without being looked at: any other non-empty first field gives the same integers. |
| AnimData.DataTokensOfJoin | src/io/github/rowak/CustomAnimDataParser.java:87-92 | Integers written with spaces are read back, the first one dropped. |
| AnimData.FramesAt | src/io/github/rowak/CustomAnimDataParser.java:104-112 | Frame k of a block is read from the five integers at 5k, in r, g, b, w, t order. |
| AnimData.DecodeBlocks | src/io/github/rowak/CustomAnimDataParser.java:96-125 | The corrected block reading: a truncated block is an index error, a negative count is rejected, and every block read has a count its frames fit. |
| AnimData.DecodeBlocksTokens | src/io/github/rowak/CustomAnimDataParser.java:96-125 | Decoding the tokens of any blocks gives those blocks back. |
| AnimData.TokensOfDecodeBlocks | src/io/github/rowak/CustomAnimDataParser.java:96-125 | Re-encoding what is decoded gives the integers back, so decoding reads every integer once. |
| AnimData.BlocksTokensLength | src/io/github/rowak/CustomAnimDataParser.java:124 | Each block takes 2 + 5·numFrames integers. |
| AnimData.AddFramesByPanel | src/io/github/rowak/CustomAnimDataParser.java:117-122 | A block's frames are appended to its panel's list. A block with no frames creates no entry, and a repeated panel id concatenates. |
| AnimData.AddFramesByNum | src/io/github/rowak/CustomAnimDataParser.java:113-121 | Frame i of a block is appended to framesByNum[i], which exists exactly when some block had more than i frames. |
| AnimData.CollectByPanel | src/io/github/rowak/CustomAnimDataParser.java:96-125 | framesByPanel[id] is the concatenation, in block order, of the frames of every block for id. The key is present exactly when that is non-empty. |
| AnimData.CollectByNum | src/io/github/rowak/CustomAnimDataParser.java:113-121 | framesByNum[i] is the i-th frame of every block with more than i frames, in block order. |
| AnimData.CollectTotals | src/io/github/rowak/CustomAnimDataParser.java:104-124 | The frame totals of framesByPanel and of framesByNum both equal the sum of the numFrames fields. |
| AnimData.AddFramesTotals | src/io/github/rowak/CustomAnimDataParser.java:104-123 | One block adds its frame count to both totals. |
| AnimData.MapTotalAppended | src/io/github/rowak/CustomAnimDataParser.java:121-122 | Appending one frame to one list adds one to the total. |
| AnimData.ParseCustom | src/io/github/rowak/CustomAnimDataParser.java:82-126 | The parse fails with the tokenising exception, or with the block-reading one. Otherwise the two maps are those collected from the decoded blocks. |
| AnimData.LayoutBlocks | src/io/github/rowak/effectbuilder/CustomEffectBuilder.java:53-69 | One block for each layout panel, in layout order, holding that panel's frames. |
| AnimData.PanelFramesOfLayout | src/io/github/rowak/effectbuilder/CustomEffectBuilder.java:53-69 | With distinct layout ids, a panel's frames across the blocks are its own list, and nothing for an id outside the layout. |
| AnimData.CustomRoundTrip | src/io/github/rowak/CustomAnimDataParser.java:96-125 | Parsing what CustomEffectBuilder.build writes succeeds. Its framesByPanel has exactly the layout panels with at least one frame, each with its own list. |
| AnimData.DecodeStatic | src/io/github/rowak/tools/StaticAnimDataParser.java:79-89 | Static blocks are read 7 integers at a time. The read succeeds exactly when the count is a multiple of 7 and is an index error otherwise. |
| AnimData.ParseStatic | src/io/github/rowak/tools/StaticAnimDataParser.java:69-90 | The tokenising exception, or the block reading of the integers after the count. |
| AnimData.StaticFramesSnoc | src/io/github/rowak/tools/StaticAnimDataParser.java:88 | One more block puts its frame under its id, overwriting an earlier one. |
| AnimData.StaticKeys | src/io/github/rowak/tools/StaticAnimDataParser.java:79-89 | The map's keys are exactly the block ids. |
| AnimData.StaticLastWins | src/io/github/rowak/tools/StaticAnimDataParser.java:88 | An id's frame is the one from its last block. |
| AnimData.StaticSize | src/io/github/rowak/tools/StaticAnimDataParser.java:79-89 | The number of entries is at most the number of blocks, and equal to it when the ids are distinct. |
| AnimData.StaticIgnoresCounts | src/io/github/rowak/tools/StaticAnimDataParser.java:81-86 | Each block's frame-count integer is never read: blocks that differ only there give the same map. |
| AnimData.StaticBody | src/io/github/rowak/effectbuilder/StaticEffectBuilder.java:59-73 | The blocks StaticEffectBuilder.build writes: 7 integers for each layout panel that has a frame. |
| AnimData.StaticFramesOfBody | src/io/github/rowak/effectbuilder/StaticEffectBuilder.java:59-73 | Reading those blocks gives the builder's frames on the layout panels. |
| AnimData.StaticRoundTrip | src/io/github/rowak/tools/StaticAnimDataParser.java:69-90 | When every frame is on a layout panel, parsing what StaticEffectBuilder.build writes gives exactly the builder's map, whatever the count token. |
| CustomAnimDataParsing.CustomAnimDataParser.Init | src/io/github/rowak/CustomAnimDataParser.java:33-36 | The parser keeps its text, and both maps start empty. |
| CustomAnimDataParsing.CustomAnimDataParser.GetFrames | src/io/github/rowak/CustomAnimDataParser.java:67-80 | framesByPanel.get(id) is the panel's list, or null exactly when the panel has no entry. |
| CustomAnimDataParsing.CustomAnimDataParser.Parse | src/io/github/rowak/CustomAnimDataParser.java:82-126 | parse succeeds exactly when ParseCustom does, and then fills both maps as ParseCustom describes; otherwise it throws ParseCustom's exception. |
| CustomAnimDataParsing.CustomAnimDataParser.ParseBlocks | src/io/github/rowak/CustomAnimDataParser.java:94-125 | The while loop over the integer array fills both maps with what DecodeBlocks and Collect give, or stops with DecodeBlocks' exception. |
| CustomAnimDataParsing.CustomAnimDataParser.ReadBlock | src/io/github/rowak/CustomAnimDataParser.java:98-124 | One pass adds the block at x to both maps and moves the cursor strictly forward past it, or raises the exception that decoding from x raises. |
| CustomAnimDataParsing.CustomAnimDataParser.AddBlockFrames | src/io/github/rowak/CustomAnimDataParser.java:104-123 | The for loop adds the block's frames to both maps. It stops as an index error exactly when the data ends inside the block. |
| CustomAnimDataParsing.DecodeFrom | src/io/github/rowak/CustomAnimDataParser.java:96-124 | From cursor x: a missing count is an index error, a negative count is rejected, a block longer than the data is an index error, and otherwise the block is read and decoding goes on after it. |
| CustomAnimDataParsing.Create | src/io/github/rowak/CustomAnimDataParser.java:33-37 | The constructor yields a parser with both maps filled exactly when ParseCustom succeeds, and otherwise yields ParseCustom's exception. |
| CustomAnimDataParsing.AsWrittenCycles | src/io/github/rowak/CustomAnimDataParser.java:96-124 | As written, on the integers of `data 1 0 1 0 1 0 1 0 1 -2` the cursor stays in a five-block cycle below data.length, so parse never returns. |
| CustomAnimDataParsing.AsWrittenReturns | src/io/github/rowak/CustomAnimDataParser.java:124 | As written, five passes bring the cursor back to its start. |
| CustomAnimDataParsing.CycleDataRejected | src/io/github/rowak/CustomAnimDataParser.java:99 | The corrected parse rejects the same text. |
| CustomAnimDataParsing.AsWrittenBlock | src/io/github/rowak/CustomAnimDataParser.java:100-122 | As written, the block read at a cursor is the panel id there with numFrames frames, none for a count that is not positive. |
| CustomAnimDataParsing.AsWrittenBlocks | src/io/github/rowak/CustomAnimDataParser.java:97-124 | As written, the blocks read in the first k passes are at most k, and exist only while the cursor stays valid. |
| CustomAnimDataParsing.AsWrittenFinishes | src/io/github/rowak/CustomAnimDataParser.java:97-124 | As written, on `9 1 0 1 0 9 -1 0 0` the cursor goes back to 1 and then reaches data.length, so parse returns with frame (0, 9, -1, 0, 0) for panel 0. The corrected parse rejects the text. |
| CustomAnimDataParsing.FinishRejected | src/io/github/rowak/CustomAnimDataParser.java:99 | The corrected parse rejects `9 1 0 1 0 9 -1 0 0`. |
| CustomAnimDataParsing.AsWrittenThrows | src/io/github/rowak/CustomAnimDataParser.java:97-124 | As written, on `2 9 -1` the cursor drops to -3 and the next pass is an index error. The corrected parse rejects the text. |
| CustomAnimDataParsing.ThrowRejected | src/io/github/rowak/CustomAnimDataParser.java:99 | The corrected parse rejects `2 9 -1`. |
| CustomAnimDataParsing.EmptyBlockThenError | src/io/github/rowak/CustomAnimDataParser.java:104-124 | A frameless block passes an error in the blocks behind it through. |
| CustomAnimDataParsing.DecodeReadsEachIntegerOnce | src/io/github/rowak/CustomAnimDataParser.java:124 | Every successful decode reads each integer exactly once: the length is 2 per block plus 5 per frame. |
| StaticAnimDataParsing.StaticAnimDataParser.Init | src/io/github/rowak/tools/StaticAnimDataParser.java:34-36 | The parser keeps its text, and the map starts empty. |
| StaticAnimDataParsing.StaticAnimDataParser.GetFrame | src/io/github/rowak/tools/StaticAnimDataParser.java:54-67 | frames.get(id) is the panel's frame, or null exactly when it has none. |
| StaticAnimDataParsing.StaticAnimDataParser.Parse | src/io/github/rowak/tools/StaticAnimDataParser.java:69-90 | parse fills the map exactly as ParseStatic describes, or throws its exception. |
| StaticAnimDataParsing.StaticAnimDataParser.PutBlocks | src/io/github/rowak/tools/StaticAnimDataParser.java:79-89 | The step-7 loop puts one frame per block, or fails with an index error when the last block is short. |
| StaticAnimDataParsing.Create | src/io/github/rowak/tools/StaticAnimDataParser.java:34-38 | The constructor yields a parser with its map filled exactly when ParseStatic succeeds, and otherwise yields its exception. |
| StaticAnimDataParsing.CreateFromEffect | src/io/github/rowak/tools/StaticAnimDataParser.java:24-28 | An effect without animData is a NullPointerException; otherwise as Create on its animData. |
| CustomEffectBuilding.CustomEffectBuilder.constructor | src/io/github/rowak/effectbuilder/CustomEffectBuilder.java:29-37 | Every layout panel id maps to an empty list, and no other id is mapped. |
| CustomEffectBuilding.CustomEffectBuilder.AddFrame | src/io/github/rowak/effectbuilder/CustomEffectBuilder.java:80-96 | For a layout id the frame is appended to that panel's list, and every other list is unchanged. Any other id is a NullPointerException that changes nothing. |
| CustomEffectBuilding.CustomEffectBuilder.RemoveFrame | src/io/github/rowak/effectbuilder/CustomEffectBuilder.java:104-120 | Only the first occurrence of the frame leaves that panel's list (nothing when absent). Any other id is a NullPointerException. |
| AnimWriting.RemoveFirstCount | src/io/github/rowak/effectbuilder/CustomEffectBuilder.java:104-120 | List.remove(Object) takes out exactly one occurrence when there is one, keeping the rest in order. |
| AnimWriting.RemoveAfterAdd | src/io/github/rowak/effectbuilder/CustomEffectBuilder.java:92-120 | Removing a frame just added, which was not in the list before, restores the list. |
| CustomEffectBuilding.CustomEffectBuilder.Build | src/io/github/rowak/effectbuilder/CustomEffectBuilder.java:47-72 | build does not change the builder. It returns a new custom effect with the given name and loop flag, whose animData is numPanels followed by "id n" and five integers per frame for each layout panel, in order. |
| CustomEffectBuilding.BuildTokenCount | src/io/github/rowak/effectbuilder/CustomEffectBuilder.java:50-69 | The text has 1 + Σ(2 + 5n) space-separated tokens. |
| CustomEffectBuilding.EmptyPanelBlock | src/io/github/rowak/effectbuilder/CustomEffectBuilder.java:56-57 | A panel with no frames still writes "id 0". |
| AnimWriting.WriteFrames | src/io/github/rowak/effectbuilder/CustomEffectBuilder.java:59-68 | The inner loop appends " r g b w t" for each frame of the list, in order. |
| AnimWriting.WriteCustomData | src/io/github/rowak/effectbuilder/CustomEffectBuilder.java:50-69 | The StringBuilder loops write exactly the text of numPanels followed by the layout's blocks. |
| AnimWriting.FrameValues | src/io/github/rowak/Effect.java:948-956 | Each Animation.Frame object contributes its five values, in order. |
| StaticEffectBuilding.StaticEffectBuilder.constructor | src/io/github/rowak/effectbuilder/StaticEffectBuilder.java:29-34 | No panel has a frame yet. |
| StaticEffectBuilding.StaticEffectBuilder.PanelIdIsValid | src/io/github/rowak/effectbuilder/StaticEffectBuilder.java:122-132 | The linear search is true exactly for a layout id. |
| StaticEffectBuilding.StaticEffectBuilder.SetPanel | src/io/github/rowak/effectbuilder/StaticEffectBuilder.java:94-106 | A layout id gets the frame, overwriting any earlier one, and no other entry changes. An unknown id is an IllegalArgumentException that changes nothing. Frame keys stay layout ids. |
| StaticEffectBuilding.StaticEffectBuilder.SetAllPanels | src/io/github/rowak/effectbuilder/StaticEffectBuilder.java:113-120 | Every layout id maps to the frame afterwards, and other entries are untouched. |
| StaticEffectBuilding.AllPanels | src/io/github/rowak/effectbuilder/StaticEffectBuilder.java:113-120 | Exactly the layout ids, each mapped to the frame. |
| StaticEffectBuilding.StaticEffectBuilder.Build | src/io/github/rowak/effectbuilder/StaticEffectBuilder.java:53-75 | The text is frames.size(), then "id 1 r g b w t" for each layout panel with a frame, in layout order. The builder is unchanged, and StaticAnimDataParser reads the text back as exactly the builder's map. |
| LocalEffects.Effect.constructor | src/io/github/rowak/Effect.java:21-39 | A new Effect has the field initialisers' values. |
| LocalEffects.Effect.SetName | src/io/github/rowak/Effect.java:354-357 | Only the name changes. |
| LocalEffects.Effect.SetLoop | src/io/github/rowak/Effect.java:390-393 | Only loop changes. |
| LocalEffects.Effect.SetAnimType | src/io/github/rowak/Effect.java:588-591 | Only animType changes. |
| LocalEffects.Effect.SetAnimData | src/io/github/rowak/Effect.java:714-717 | Only animData changes. |
| LocalEffects.CustomEffect | src/io/github/rowak/Effect.java:330-339 | A custom effect has type CUSTOM and the given name, data and loop; every other field is at its default. |
| LocalEffects.CreateCustomEffect | src/io/github/rowak/Effect.java:330-339 | createCustomEffect returns a new effect with exactly those fields. |
| LocalEffects.PanelsTokens | src/io/github/rowak/Effect.java:303-313 | The blocks of the panels take a multiple of 7 integers, 7 per panel. |
| LocalEffects.StaticFramesOfPanels | src/io/github/rowak/Effect.java:303-313 | Reading the blocks gives each panel's colour under its id, with the last panel winning. |
| LocalEffects.StaticEffectRoundTrip | src/io/github/rowak/Effect.java:296-317 | StaticAnimDataParser reads createStaticEffect's animData back as every panel's colour, at transition time 0. |
| LocalEffects.StaticEffect | src/io/github/rowak/Effect.java:296-317 | A static effect has type STATIC, the animData built, loop false, and every other field at its default. |
| LocalEffects.CreateStaticEffect | src/io/github/rowak/Effect.java:292-318 | animData is numPanels followed by " id 1 r g b w 0" for each panel. The type is STATIC and loop is false. |
| LocalEffects.GetByObject | src/io/github/rowak/Effect.java:919-929 | HashMap.get finds a value only for an Integer key that is present. |
| LocalEffects.PanelKeyNeverFound | src/io/github/rowak/Effect.java:929 | Looking the map up by a Panel object never finds a list, whereas looking it up by the panel's id does. |
| LocalEffects.EmptyLists | src/io/github/rowak/Effect.java:873-874 | The layout ids, each mapped to an empty list. |
| LocalEffects.Animation.constructor | src/io/github/rowak/Effect.java:867-875 | A new Animation holds an empty list for each layout panel. |
| LocalEffects.Animation.AddFrame | src/io/github/rowak/Effect.java:917-920 | The frame is appended to the list of panel.getId(), and other lists are unchanged. A panel without a list is a NullPointerException. |
| LocalEffects.Animation.RemoveFrame | src/io/github/rowak/Effect.java:927-930 | As written, every call is a NullPointerException that changes nothing. |
| LocalEffects.Animation.RemoveFrameById | src/io/github/rowak/Effect.java:927-930 | As intended: the first occurrence of the frame leaves the list of panel.getId(). |
| LocalEffects.Animation.CreateAnimation | src/io/github/rowak/Effect.java:885-910 | The result is a custom effect whose animData is the same text CustomEffectBuilder.build writes for the animation's lists. |
| EffectJson.TypeNamed | src/io/github/rowak/Effect.java:66 | Type.valueOf finds the constant with exactly that name, or none. |
| EffectJson.TypeNameRoundTrip | src/io/github/rowak/Effect.java:66 | The lower-case name written for a type is read back by upper-casing and valueOf as the same type. |
| EffectJson.ColorKeysOf | src/io/github/rowak/Effect.java:719-737 | A colour object starts with hue, saturation and brightness. It has "probability" exactly when the probability is not -1, and no key repeats. |
| EffectJson.WrittenList | src/io/github/rowak/Effect.java:719-737 | After each colour the builder holds the palette text so far. |
| EffectJson.WriteList | src/io/github/rowak/Effect.java:719-737 | The loop writes "[" + the items joined by "," + "]". An empty list gives just "[". |
| EffectJson.PaletteToJson | src/io/github/rowak/Effect.java:719-737 | paletteToJSON is the list text of the colour texts. |
| EffectJson.ObjectText | src/io/github/rowak/Effect.java:193-279 | The object text of members starts with "{" and ends with "}". |
| EffectJson.Members | src/io/github/rowak/Effect.java:193-279 | The member keys, in append order, are exactly AllKeys for the type. A null animType, or a null palette outside CUSTOM and STATIC, is a NullPointerException. |
| EffectJson.ToJson | src/io/github/rowak/Effect.java:193-279 | For all nine types, toJSON's text begins with "{" and ends with "}". |
| EffectJson.CommandKey | src/io/github/rowak/Effect.java:197-198 | "command" is among the keys exactly when there is a command. |
| EffectJson.CommandMember | src/io/github/rowak/Effect.java:197-198 | A first "command" member is written exactly when writeCommand is neither null nor the interned "" literal (reference comparison). |
| EffectJson.VersionKey | src/io/github/rowak/Effect.java:199-200 | "version" is among the keys for WHEEL and PLUGIN only. |
| EffectJson.VersionMember | src/io/github/rowak/Effect.java:199-200 | A top-level "version" member appears for WHEEL and PLUGIN only. |
| EffectJson.AnimDataKey | src/io/github/rowak/Effect.java:211-264 | "animData" is among the keys for every type except FLOW, EXPLODE and PLUGIN. |
| EffectJson.AnimDataMember | src/io/github/rowak/Effect.java:211-264 | animData is omitted for FLOW, EXPLODE and PLUGIN, quoted for CUSTOM and STATIC, and unquoted for WHEEL, HIGHLIGHT, RANDOM and FADE. |
| EffectJson.Head | src/io/github/rowak/Effect.java:196-201 | The keys written first are the command (when present), version for WHEEL, then animName. |
| EffectJson.AttributeValues | src/io/github/rowak/Effect.java:218-257 | One value per attribute key of the type. |
| EffectJson.BodyValues | src/io/github/rowak/Effect.java:203-278 | One value per body key of the type, or a NullPointerException. |
| EffectJson.ColorFromJson | src/io/github/rowak/Effect.java:82-96 | A palette entry is read exactly when it is an object with int hue, saturation and brightness, which are its fields. The probability is getDouble's value (a number or a numeric string), and -1 when getDouble fails. Every failure is a JSONException. |
| EffectJson.ColorProbabilityText | src/io/github/rowak/Effect.java:88-95 | A probability given as the text "0.5" reads as one half. |
| EffectJson.PaletteFromJson | src/io/github/rowak/Effect.java:78-97 | Every entry is read, in order, or the first one's failure is the result. |
| EffectJson.PluginValuesFrom | src/io/github/rowak/Effect.java:101-112 | Reading the loop, transTime and delayTime options fails only with a JSONException. |
| EffectJson.RangeFrom | src/io/github/rowak/Effect.java:118-128 | A range object with both int bounds is read; anything else gives -1 for both. |
| EffectJson.CommonFrom | src/io/github/rowak/Effect.java:64-97 | Errors are JSONException or IllegalArgumentException (valueOf). On success animType, palette and version are set, windowSize is -1, and every field other than the six read keeps its default. |
| EffectJson.PluginFrom | src/io/github/rowak/Effect.java:99-115 | The version "2.0" PLUGIN branch fails only with a JSONException and leaves animType, windowSize and all three ranges as they were. |
| EffectJson.AttributesFrom | src/io/github/rowak/Effect.java:116-177 | Outside the plugin branch, animType is kept, each range is RangeFrom of its key, and windowSize stays -1 unless the type is WHEEL. Every failure is a JSONException. explodeFactor is getDouble's value for EXPLODE and -1 for every other type. |
| EffectJson.FromJson | src/io/github/rowak/Effect.java:60-180 | fromJSON fails only with a JSONException or an IllegalArgumentException; the effect it returns always has an animType and a palette. |
| EffectJson.FromJsonWindowSize | src/io/github/rowak/Effect.java:129-132 | windowSize is -1 for every type but WHEEL. |
| EffectJson.FromJsonExplodeFactor | src/io/github/rowak/Effect.java:148-151 | explodeFactor is -1 for every type but EXPLODE; for EXPLODE the text "0.5" reads as one half. |
| EffectJson.FromJsonRangesAbsent | src/io/github/rowak/Effect.java:118-162 | A missing transTime, delayTime or brightnessRange leaves both its bounds at -1. |
| EffectJson.FromJsonRangePresent | src/io/github/rowak/Effect.java:118-162 | Outside the plugin branch, a well-formed range object is read as it stands. |
| Frames.Equals | src/io/github/rowak/nanoleafapi/Frame.java:99-111 | equals is true exactly for a Frame with equal r, g, b, w and t, and false for null and for any other class. |
| Frames.EqualsReflexiveSymmetric | src/io/github/rowak/nanoleafapi/Frame.java:104-108 | equals is reflexive and symmetric. |
| Frames.AnimFrame.constructor | src/io/github/rowak/Effect.java:948-956 | An Animation.Frame holds the five values it was given. |
| Panels.WrappedDifferenceSquare | src/io/github/rowak/nanoleafapi/Panel.java:188-189 | A wrapped `int` difference has the same square either way round. |
| Panels.SquaredDistanceSymmetric | src/io/github/rowak/nanoleafapi/Panel.java:188-189 | The squared centre distance is symmetric. |
| Panels.Panel.constructor | src/io/github/rowak/nanoleafapi/Panel.java:24-28 | The id and position are stored, the colour starts at 0 and shapeType stays 0. |
| Panels.Panel.WithShape | src/io/github/rowak/nanoleafapi/Panel.java:38-42 | As the 4-argument constructor, then shapeType. |
| Panels.Panel.SetX | src/io/github/rowak/nanoleafapi/Position.java:37-40 | Only x changes. |
| Panels.Panel.SetY | src/io/github/rowak/nanoleafapi/Position.java:55-58 | Only y changes. |
| Panels.Panel.SetOrientation | src/io/github/rowak/nanoleafapi/Position.java:73-76 | Only orientation changes. |
| Panels.Panel.SetRed | src/io/github/rowak/nanoleafapi/Panel.java:84-87 | Only r changes. |
| Panels.Panel.SetGreen | src/io/github/rowak/nanoleafapi/Panel.java:102-105 | Only g changes. |
| Panels.Panel.SetBlue | src/io/github/rowak/nanoleafapi/Panel.java:120-123 | Only b changes. |
| Panels.Panel.SetWhite | src/io/github/rowak/nanoleafapi/Panel.java:138-141 | Only w changes. |
| Panels.Panel.SetRGB | src/io/github/rowak/nanoleafapi/Panel.java:149-154 | r, g and b change; w and the position do not (id and shapeType are final). |
| Panels.Panel.SetRGBW | src/io/github/rowak/nanoleafapi/Panel.java:163-168 | All four channels are set, and nothing else changes. |
| Panels.Panel.GetNeighbors | src/io/github/rowak/nanoleafapi/Panel.java:176-195 | The result is, in input order, exactly the input panels whose squared centre distance d has floor(√d) = 86. |
| Panels.Panel.NeighborsInBounded | src/io/github/rowak/nanoleafapi/Panel.java:181-194 | There are never more neighbours than input panels. A panel is among them exactly when it is an input panel and a neighbour. |
| Panels.Panel.NotOwnNeighbor | src/io/github/rowak/nanoleafapi/Panel.java:188-189 | A panel at this panel's own coordinates, this panel included, is never a neighbour. |
| Panels.Panel.NeighborSymmetric | src/io/github/rowak/nanoleafapi/Panel.java:188-189 | Being a neighbour is symmetric. |
| NanoleafEffects.KnownProperties | src/io/github/rowak/nanoleafapi/Effect.java:72-86 | fromJSON keeps exactly the input keys that are in PROPERTIES_NAMES, with their values. |
| NanoleafEffects.KnownPropertiesIdempotent | src/io/github/rowak/nanoleafapi/Effect.java:77-83 | Filtering twice keeps what filtering once kept. |
| NanoleafEffects.FromJson | src/io/github/rowak/nanoleafapi/Effect.java:72-86 | A new effect whose properties are the known ones. |
| NanoleafEffects.JsonOf | src/io/github/rowak/nanoleafapi/Effect.java:99-112 | toJSON writes every property with its value. When no property is named "command", "command" is present exactly when writeCommand is neither null nor the "" literal. |
| NanoleafEffects.NanoleafEffect.ToJson | src/io/github/rowak/nanoleafapi/Effect.java:99-121 | toJSON(writeCommand) builds that object. |
| NanoleafEffects.FromJsonToJson | src/io/github/rowak/nanoleafapi/Effect.java:72-121 | fromJSON then toJSON() gives the known properties of the input back. |
| NanoleafEffects.NanoleafEffect.constructor | src/io/github/rowak/nanoleafapi/Effect.java:60-63 | A new effect has no properties. |
| NanoleafEffects.NanoleafEffect.Put | src/io/github/rowak/nanoleafapi/Effect.java:270-273 | A plain setter (setName and the other put-only setters) sets its key and nothing else. |
| NanoleafEffects.TypeTextInjective | src/io/github/rowak/nanoleafapi/Effect.java:515-525 | Different types are stored as different lower-case names. |
| NanoleafEffects.DirectionTextInjective | src/io/github/rowak/nanoleafapi/Effect.java:629-639 | Different directions are stored as different lower-case names. |
| NanoleafEffects.UpperDirection | src/io/github/rowak/nanoleafapi/Effect.java:52-55 | Direction names are upper-case. |
| NanoleafEffects.AllTypesListed | src/io/github/rowak/nanoleafapi/Effect.java:40-44 | Type.values() lists every type. |
| NanoleafEffects.AllDirectionsListed | src/io/github/rowak/nanoleafapi/Effect.java:52-55 | Direction.values() lists every direction. |
| NanoleafEffects.LastNamed | src/io/github/rowak/nanoleafapi/Effect.java:500-508 | The enum loop finds a value whose name is the stored text, or none exactly when no value has that name. |
| NanoleafEffects.NanoleafEffect.GetAnimType | src/io/github/rowak/nanoleafapi/Effect.java:497-509 | The type whose lower-case name is stored, or null exactly when no type has that name; a non-String is a ClassCastException. |
| NanoleafEffects.NanoleafEffect.SetAnimType | src/io/github/rowak/nanoleafapi/Effect.java:515-525 | The lower-case name is stored; null is a NullPointerException that changes nothing. |
| NanoleafEffects.NanoleafEffect.GetDirection | src/io/github/rowak/nanoleafapi/Effect.java:613-623 | As GetAnimType, for directions. |
| NanoleafEffects.NanoleafEffect.SetDirection | src/io/github/rowak/nanoleafapi/Effect.java:629-639 | As SetAnimType, for directions; null changes nothing. |
| NanoleafEffects.NanoleafEffect.SetThenGetAnimType | src/io/github/rowak/nanoleafapi/Effect.java:497-525 | setAnimType(t) followed by getAnimType() returns t: the lower-case names of distinct types differ. |
| NanoleafEffects.NanoleafEffect.SetThenGetDirection | src/io/github/rowak/nanoleafapi/Effect.java:613-639 | setDirection(d) followed by getDirection() returns d. |
| NanoleafEffects.Cleaned | src/io/github/rowak/nanoleafapi/Effect.java:325-344 | A colour is accepted exactly when getDouble reads its probability (a number or a numeric string). The probability is removed when it is -1 and kept otherwise; otherwise it is a JSONException. |
| NanoleafEffects.CleanedTextProbability | src/io/github/rowak/nanoleafapi/Effect.java:333 | A probability given as the text "0.5" is read and kept. |
| NanoleafEffects.CleanedAll | src/io/github/rowak/nanoleafapi/Effect.java:325-344 | Each palette entry, cleaned, in order. |
| NanoleafEffects.NanoleafEffect.SetPalette | src/io/github/rowak/nanoleafapi/Effect.java:325-344 | null is a NullPointerException, and a colour without a probability is a JSONException; both change nothing. Otherwise "palette" holds the cleaned colours. |
| NanoleafEffects.FirstOptionFrom | src/io/github/rowak/nanoleafapi/Effect.java:705-720 | The option found carries the name asked for. |
| NanoleafEffects.NanoleafEffect.GetPluginOption | src/io/github/rowak/nanoleafapi/Effect.java:705-720 | getPluginOption is PluginOptionOf: the first option of that name, null, or an exception. |
| NanoleafEffects.LastOptionIn | src/io/github/rowak/nanoleafapi/Effect.java:686-696 | setPluginOption's scan finds the last object of that name. |
| NanoleafEffects.LastOptionErr | src/io/github/rowak/nanoleafapi/Effect.java:686-696 | An exception in the scan ends it: later items do not change it. |
| NanoleafEffects.OptionSet | src/io/github/rowak/nanoleafapi/Effect.java:683-698 | setPluginOption needs a pluginOptions array. It only changes that array: the keys and every other property stay. |
| NanoleafEffects.NanoleafEffect.SetPluginOption | src/io/github/rowak/nanoleafapi/Effect.java:683-698 | The properties become OptionSet's, or an exception leaves them unchanged. |
| NanoleafEffects.Special | src/io/github/rowak/nanoleafapi/Effect.java:729-770 | An Integer (an int-range JSON integer) read as Double is widened, and a null read as String becomes "null". Anything else, a Long read as Double included, is returned as stored. |
| NanoleafEffects.SafeGet | src/io/github/rowak/nanoleafapi/Effect.java:729-770 | A set property is returned through Special, and otherwise the plugin option through Special or the type's default; plugin-option exceptions come first. |
| NanoleafEffects.NanoleafEffect.SafeGetProperty | src/io/github/rowak/nanoleafapi/Effect.java:729-770 | safeGetProperty is SafeGet on the properties. |
| NanoleafEffects.PropertyHidesOption | src/io/github/rowak/nanoleafapi/Effect.java:729-770 | A set property hides a plugin option of the same name. |
| NanoleafEffects.GettersReadProperties | src/io/github/rowak/nanoleafapi/Effect.java:729-770 | A set property reads back as itself through every getter type. |
| NanoleafEffects.UnsetDefaults | src/io/github/rowak/nanoleafapi/Effect.java:297-300 | On an empty effect getLoop is false, the int getters -1, the double getters -1.0 and the String getters null. |
| NanoleafEffects.AsBoolean | src/io/github/rowak/nanoleafapi/Effect.java:297-300 | Unboxing to boolean succeeds only for a Boolean. |
| NanoleafEffects.AsInteger | src/io/github/rowak/nanoleafapi/Effect.java:396-399 | Unboxing to int succeeds only for an Integer. |
| NanoleafEffects.AsDouble | src/io/github/rowak/nanoleafapi/Effect.java:414-417 | Unboxing to double succeeds only for a Double. |
| NanoleafEffects.LongFactorIsClassCast | src/io/github/rowak/nanoleafapi/Effect.java:736-737 | A set integer property read as Double is its value when it is an Integer, and a ClassCastException at the (Double) cast when it is a Long. |
| NanoleafEffects.AsString | src/io/github/rowak/nanoleafapi/Effect.java:478-482 | A String cast succeeds for null or a String. |
| NanoleafEffects.Stored | src/io/github/rowak/nanoleafapi/Effect.java:499 | A missing key is null; otherwise the String cast of the value. |
| NanoleafEffects.NanoleafEffect.GetLoop | src/io/github/rowak/nanoleafapi/Effect.java:297-300 | getLoop unboxes safeGetProperty("loop", Boolean). |
| NanoleafEffects.NanoleafEffect.GetWindowSize | src/io/github/rowak/nanoleafapi/Effect.java:396-399 | getWindowSize unboxes safeGetProperty("windowSize", Integer). |
| NanoleafEffects.NanoleafEffect.GetFactor | src/io/github/rowak/nanoleafapi/Effect.java:414-417 | getFlowFactor and getExplodeFactor (549-552) unbox safeGetProperty(property, Double): a Double or widened Integer reads as its value, and a Long is a ClassCastException. |
| NanoleafEffects.NanoleafEffect.GetText | src/io/github/rowak/nanoleafapi/Effect.java:478-482 | The String getters cast safeGetProperty's value. |
| NanoleafEffects.PluginSetOnlyOptions | src/io/github/rowak/nanoleafapi/Effect.java:777-789 | For a PLUGIN effect of version "2.0", only an existing plugin option of that name changes. The keys and every other property stay, and with no such option nothing changes. |
| NanoleafEffects.OtherSetProperty | src/io/github/rowak/nanoleafapi/Effect.java:777-789 | Any other effect gets the property itself. |
| NanoleafEffects.NanoleafEffect.SafeSetProperty | src/io/github/rowak/nanoleafapi/Effect.java:777-789 | The properties become SafeSet's, or an exception leaves them unchanged. |
| NanoleafEffects.NanoleafEffect.SetLoop | src/io/github/rowak/nanoleafapi/Effect.java:306-309 | setLoop is safeSetProperty("loop", loop). |
| NanoleafEffects.RangeBound | src/io/github/rowak/nanoleafapi/Effect.java:797-808 | A bound reads -1 when the range property is absent, the bound's Integer when it is an object, and ClassCastException otherwise. |
| NanoleafEffects.NanoleafEffect.GetBound | src/io/github/rowak/nanoleafapi/Effect.java:360-363 | getMaxTransTime and the five other bound getters are RangeBound. |
| NanoleafEffects.RangeSetGet | src/io/github/rowak/nanoleafapi/Effect.java:816-831 | A set bound reads back as the value, and every other property is unchanged. |
| NanoleafEffects.RangeSetFresh | src/io/github/rowak/nanoleafapi/Effect.java:816-831 | Setting one bound of an absent range makes the other bound read 0. |
| NanoleafEffects.RangeSetKeepsOther | src/io/github/rowak/nanoleafapi/Effect.java:818-822 | Setting one bound of an existing range leaves the other bound as it was. |
| NanoleafEffects.RangeSetObject | src/io/github/rowak/nanoleafapi/Effect.java:816-831 | After a set the range is an object. |
| NanoleafEffects.NanoleafEffect.SetBound | src/io/github/rowak/nanoleafapi/Effect.java:369-372 | setMaxTransTime and the five other bound setters are RangeSet, or a ClassCastException that changes nothing. |
| NanoleafEffects.BothSetGet | src/io/github/rowak/nanoleafapi/Effect.java:350-354 | After setTransTime(v), setDelayTime(v) or setBrightness(v), both bounds read v. Only a range that is not an object fails. |
| NanoleafEffects.NanoleafEffect.SetRange | src/io/github/rowak/nanoleafapi/Effect.java:350-571 | setTransTime, setDelayTime (432-436) and setBrightness (567-571) set the maximum then the minimum. |
| PluginOptionMaps.OptionsFrom | src/io/github/rowak/PluginOptions.java:48-61 | Only known option names are kept, and every failure is a JSONException. |
| PluginOptionMaps.OptionsFromLastWins | src/io/github/rowak/PluginOptions.java:48-61 | An option is kept exactly when its name is known and some item carries it, and the last such item gives the value. |
| PluginOptionMaps.OptionsFromErr | src/io/github/rowak/PluginOptions.java:48-52 | A JSONException ends the loop. |
| PluginOptionMaps.FromJson | src/io/github/rowak/PluginOptions.java:43-64 | fromJSON yields the options OptionsFrom gives, or the JSONException with no object made. |
| PluginOptionMaps.IntOf | src/io/github/rowak/PluginOptions.java:110-120 | getTransTime, getDelayTime (224-234) and getNumColorsPerFrame (252-262) give -1 when unset and the Integer when set. |
| PluginOptionMaps.BoolOf | src/io/github/rowak/PluginOptions.java:137-147 | loop() is false when unset. |
| PluginOptionMaps.DoubleOf | src/io/github/rowak/PluginOptions.java:278-288 | getMainColorProbability is -1 when unset; an Integer is a ClassCastException. |
| PluginOptionMaps.TextOf | src/io/github/rowak/PluginOptions.java:163-166 | The direction getters give null when unset. |
| PluginOptionMaps.SetThenGet | src/io/github/rowak/PluginOptions.java:128-297 | A setter followed by its getter gives the value set, and every other option reads as before. |
| PluginOptionMaps.PluginOptions.constructor | src/io/github/rowak/PluginOptions.java:31-34 | No options. |
| PluginOptionMaps.PluginOptions.Set | src/io/github/rowak/PluginOptions.java:128-131 | A setter puts its option and nothing else. |
| PluginOptionMaps.Entries | src/io/github/rowak/PluginOptions.java:73-80 | One {name, value} object per name. |
| PluginOptionMaps.PluginOptions.ToJson | src/io/github/rowak/PluginOptions.java:70-82 | toJSON writes exactly one {name, value} object per stored option, in an iteration order that names every option once. |
| PluginOptionMaps.ToJsonFromJson | src/io/github/rowak/PluginOptions.java:43-82 | fromJSON reads back the known options toJSON wrote, whatever the order. |
| AuroraMetadatas.AuroraMetadata.constructor | src/io/github/rowak/nanoleafapi/AuroraMetadata.java:30-37 | All four fields are stored. |
| AuroraMetadatas.AuroraMetadata.SetHostName | src/io/github/rowak/nanoleafapi/AuroraMetadata.java:101-104 | Only hostName changes. |
| AuroraMetadatas.AuroraMetadata.SetPort | src/io/github/rowak/nanoleafapi/AuroraMetadata.java:120-123 | Only port changes. |
| AuroraMetadatas.AuroraMetadata.SetDeviceId | src/io/github/rowak/nanoleafapi/AuroraMetadata.java:139-142 | Only deviceId changes. |
| AuroraMetadatas.AuroraMetadata.SetDeviceName | src/io/github/rowak/nanoleafapi/AuroraMetadata.java:162-165 | Only deviceName changes. |
| AuroraMetadatas.SsdpDevice | src/io/github/rowak/nanoleafapi/AuroraMetadata.java:70-78 | The slicing fails only with an index error or a NumberFormatException. |
| AuroraMetadatas.SsdpDeviceTrimmed | src/io/github/rowak/nanoleafapi/AuroraMetadata.java:70 | The input is trimmed first, so surrounding white space changes nothing. |
| AuroraMetadatas.SliceAt | src/io/github/rowak/nanoleafapi/AuroraMetadata.java:71-78 | The slicing at given header positions fails only with an index error or a NumberFormatException. |
| AuroraMetadatas.SlicesOf | src/io/github/rowak/nanoleafapi/AuroraMetadata.java:71-78 | Fields placed where the offsets cut are read back; a non-numeric port is a NumberFormatException. |
| AuroraMetadatas.SplitAddress | src/io/github/rowak/nanoleafapi/AuroraMetadata.java:71-73 | "host:port" splits into exactly host and port. |
| AuroraMetadatas.LocationAt | src/io/github/rowak/nanoleafapi/AuroraMetadata.java:71 | "Location:" is found right after the head. |
| AuroraMetadatas.DeviceIdAt | src/io/github/rowak/nanoleafapi/AuroraMetadata.java:72-75 | "nl-deviceid:" is found right after the address. |
| AuroraMetadatas.DeviceNameAt | src/io/github/rowak/nanoleafapi/AuroraMetadata.java:76-77 | "nl-devicename:" is found right after the device id. |
| AuroraMetadatas.ReplySlices | src/io/github/rowak/nanoleafapi/AuroraMetadata.java:71-78 | In a reply the address runs from 17 after "Location:" to 2 before "nl-deviceid:". The id runs from 13 after it to 2 before "nl-devicename:", and the name from 15 after that to one before the end. |
| AuroraMetadatas.SsdpRoundTrip | src/io/github/rowak/nanoleafapi/AuroraMetadata.java:67-85 | A reply laid out as the device sends it, with no 'L', 'v' or 'm' in its leading text, no ':', 'v' or 'm' in host and port, a non-empty port and no 'm' in the device id, reads back as its host, port, device id and device name, or a NumberFormatException for a non-numeric port. |
| AuroraMetadatas.SsdpPortRoundTrip | src/io/github/rowak/nanoleafapi/AuroraMetadata.java:67-85 | Under the same restrictions on the leading text and the fields, a reply whose port is Integer.toString of a port reads back as exactly the device. |
| AuroraMetadatas.FromSsdpPacketData | src/io/github/rowak/nanoleafapi/AuroraMetadata.java:67-85 | The metadata holds the sliced fields exactly when the slicing succeeds, and the slicing's exception otherwise. |
| AuroraMetadatas.FromMdnsInstance | src/io/github/rowak/nanoleafapi/AuroraMetadata.java:47-56 | hostName comes from the first address and deviceId from the second, with the instance's port and name. Fewer than two addresses is a NoSuchElementException. |
| ScheduleDates.DateAsJson | src/io/github/rowak/schedule/Schedule.java:206-218 | Exactly the keys year, month, day, hour, minute and time_zone. The month is the Calendar month + 1 (1..12 for 0..11), and time_zone is 0. |
| ScheduleDates.DateFromJson | src/io/github/rowak/schedule/Schedule.java:226-236 | Each field is read with getInt, the month 1 lower. A missing or non-numeric field is a JSONException. |
| ScheduleDates.MonthShift | src/io/github/rowak/schedule/Schedule.java:212 | +1 then -1 in int arithmetic gives the month back, also across the wrap. |
| ScheduleDates.DateRoundTrip | src/io/github/rowak/schedule/Schedule.java:206-236 | getDateFromJson undoes getDateAsJson on year, month, day, hour and minute. |
| Schedules.RandomSetId | src/io/github/rowak/schedule/Schedule.java:178-181 | The generated set id is "uuid1--uuid2". |
| Schedules.Schedule.constructor | src/io/github/rowak/schedule/Schedule.java:32-45 | All fields stored; a null setId is replaced by the random one, and a non-null one is kept. |
| Schedules.Schedule.SetId | src/io/github/rowak/schedule/Schedule.java:78-81 | Only id changes. |
| Schedules.Schedule.SetSetId | src/io/github/rowak/schedule/Schedule.java:101-104 | Only setId changes. |
| Schedules.Schedule.SetEnabled | src/io/github/rowak/schedule/Schedule.java:119-122 | Only enabled changes. |
| Schedules.Schedule.SetStartTime | src/io/github/rowak/schedule/Schedule.java:137-140 | Only startTime changes. |
| Schedules.Schedule.SetAction | src/io/github/rowak/schedule/Schedule.java:155-158 | Only action changes. |
| Schedules.Schedule.SetRepeat | src/io/github/rowak/schedule/Schedule.java:173-176 | Only repeat changes. |
| Schedules.ScheduleObject | src/io/github/rowak/schedule/Schedule.java:189-195 | The object's keys are id, set_id, enabled, start_time, action and repeat, set_id dropped when null, each holding its converted part. |
| Schedules.ScheduleToJson | src/io/github/rowak/schedule/Schedule.java:187-197 | toJSON writes exactly those keys. A null start time, action or repeat, or a repeat without end time, is a NullPointerException. |
| Schedules.ScheduleFromJson | src/io/github/rowak/schedule/Schedule.java:52-63 | id, set_id and enabled are taken verbatim, with start_time, action and repeat through their readers; any failure is a JSONException. |
| Schedules.ObjectReadBack | src/io/github/rowak/schedule/Schedule.java:52-63 | On the written object, id, set_id, enabled, the start time and the action's on/brightness fields read back. |
| Schedules.ScheduleFieldsReadBack | src/io/github/rowak/schedule/Schedule.java:52-63 | The same on toJSON's output: the action's effects are lost and the repeat never reads back. |
| Schedules.ScheduleNotReadBack | src/io/github/rowak/schedule/Schedule.java:52-197 | Hence fromJSON never accepts what toJSON writes. |
| ScheduleActions.ActionToJson | src/io/github/rowak/schedule/ScheduleAction.java:138-151 | on is written as 1 or 0 and brightness as {value, duration}. "effects" is present only when there are effects. |
| ScheduleActions.ActionFromJson | src/io/github/rowak/schedule/ScheduleAction.java:23-38 | on is true exactly when the integer is 1, and brightness and duration are read. A missing "effects" leaves effects null. |
| ScheduleActions.ActionRoundTrip | src/io/github/rowak/schedule/ScheduleAction.java:23-151 | on, brightness and brightnessDuration survive toJSON then fromJSON; the effects do not. |
| ScheduleActions.ScheduleAction.constructor | src/io/github/rowak/schedule/ScheduleAction.java:13-16 | Java's field defaults: false, 0, 0, null. |
| ScheduleActions.ScheduleAction.SetOn | src/io/github/rowak/schedule/ScheduleAction.java:55-58 | Only on changes. |
| ScheduleActions.ScheduleAction.SetBrightness | src/io/github/rowak/schedule/ScheduleAction.java:75-78 | Only brightness changes. |
| ScheduleActions.ScheduleAction.SetBrightnessDuration | src/io/github/rowak/schedule/ScheduleAction.java:95-98 | Only the duration changes. |
| ScheduleActions.ScheduleAction.SetBrightnessWithDuration | src/io/github/rowak/schedule/ScheduleAction.java:106-110 | Brightness and duration are both set, and nothing else. |
| ScheduleActions.ScheduleAction.SetEffects | src/io/github/rowak/schedule/ScheduleAction.java:129-132 | Only effects changes. |
| Wrappers.FirstWithValue | src/io/github/rowak/schedule/ScheduleRepeat.java:118-128 | The lookup loop of getIntervalTypeFromInt (and of ScheduleEffects.getRandomTypeFromInt) finds a constant whose value is v, or none exactly when no constant has it. |
| ScheduleRepeats.IntervalTypeFromValue | src/io/github/rowak/schedule/ScheduleRepeat.java:118-128 | getIntervalTypeFromInt(t.getValue()) is t for every RepeatType, and null exactly outside -1..4. |
| ScheduleRepeats.ScheduleRepeat.constructor | src/io/github/rowak/schedule/ScheduleRepeat.java:28-40 | A null endTime becomes the current date in year 2999. |
| ScheduleRepeats.ScheduleRepeat.SetIntervalType | src/io/github/rowak/schedule/ScheduleRepeat.java:73-76 | Only the type changes. |
| ScheduleRepeats.ScheduleRepeat.SetIntervalValue | src/io/github/rowak/schedule/ScheduleRepeat.java:93-96 | Only the value changes. |
| ScheduleRepeats.ScheduleRepeat.SetEndTime | src/io/github/rowak/schedule/ScheduleRepeat.java:113-116 | Only the end time changes. |
| ScheduleRepeats.EndTimeJson | src/io/github/rowak/schedule/ScheduleRepeat.java:146-155 | The fixed {year: 3000, month: 0, …} end_time is written exactly for year 2999, or for the one date whose own fields are those. |
| ScheduleRepeats.SentinelIffNever | src/io/github/rowak/schedule/ScheduleRepeat.java:146-155 | For any date Calendar can report, the fixed end_time is written exactly when the year is 2999. |
| ScheduleRepeats.RepeatToJson | src/io/github/rowak/schedule/ScheduleRepeat.java:141-159 | interval_value is written unchanged, with end_time as above and interval_type when non-null. A null end time is a NullPointerException. |
| ScheduleRepeats.RepeatFromJson | src/io/github/rowak/schedule/ScheduleRepeat.java:48-57 | interval_type is read through the code table, and interval_value unchanged; end_time goes through getDateFromJson. |
| ScheduleRepeats.RepeatNotReadBack | src/io/github/rowak/schedule/ScheduleRepeat.java:48-159 | toJSON's output never reads back, since interval_type is an enum or is absent. |
| ScheduleRepeats.RepeatReadBackByCode | src/io/github/rowak/schedule/ScheduleRepeat.java:48-159 | With interval_type written as its integer, the type and value read back. |
| ScheduleRepeats.DefaultEndTimeRead | src/io/github/rowak/schedule/ScheduleRepeat.java:130-134 | The fixed end_time reads as its raw fields. |
| ScheduleRepeats.RepeatFromFields | src/io/github/rowak/schedule/ScheduleRepeat.java:48-57 | An object with the three keys is read field by field. |
| ScheduleEffectsModel.RandomTypeFromValue | src/io/github/rowak/nanoleafapi/schedule/ScheduleEffects.java:117-127 | getRandomTypeFromInt inverts getValue over RandomType, and is null exactly outside -1..2. |
| ScheduleEffectsModel.EffectsToJson | src/io/github/rowak/nanoleafapi/schedule/ScheduleEffects.java:135-152 | random_on is copied. "effect" is {"animName": name} exactly when there is a name, and JSON null otherwise. |
| ScheduleEffectsModel.EffectsFromJson | src/io/github/rowak/nanoleafapi/schedule/ScheduleEffects.java:40-57 | random_on is copied and random_type goes through the table. effectName is null exactly when "effect" is missing or not an object. |
| ScheduleEffectsModel.EffectsNotReadBack | src/io/github/rowak/nanoleafapi/schedule/ScheduleEffects.java:40-152 | toJSON's output never reads back. |
| ScheduleEffectsModel.EffectsReadBackByCode | src/io/github/rowak/nanoleafapi/schedule/ScheduleEffects.java:40-152 | With random_type as its integer, every field reads back. |
| ScheduleEffectsModel.ScheduleEffects.constructor | src/io/github/rowak/nanoleafapi/schedule/ScheduleEffects.java:26-32 | randomOn, randomType and effectName are stored as given. |
| ScheduleEffectsModel.ScheduleEffects.SetRandomOn | src/io/github/rowak/nanoleafapi/schedule/ScheduleEffects.java:72-75 | Only randomOn changes. |
| ScheduleEffectsModel.ScheduleEffects.SetRandomType | src/io/github/rowak/nanoleafapi/schedule/ScheduleEffects.java:92-95 | Only randomType changes. |
| ScheduleEffectsModel.ScheduleEffects.SetEffect | src/io/github/rowak/nanoleafapi/schedule/ScheduleEffects.java:112-115 | Only effectName changes. |
| ScheduleBuilders.Filled | src/io/github/rowak/nanoleafapi/schedule/builder/ScheduleBuilder.java:35-42 | After the fill-ins the setId and the start time are always set. Values already set are kept, and no other field changes. |
| ScheduleBuilders.BuiltIsWritable | src/io/github/rowak/nanoleafapi/schedule/builder/ScheduleBuilder.java:33-52 | A schedule that build accepts, with a repeat that has an end time, can be written by toJSON with all six keys. |
| ScheduleBuilders.ScheduleBuilder.constructor | src/io/github/rowak/nanoleafapi/schedule/builder/ScheduleBuilder.java:22-26 | An empty schedule, which already has a random set id. |
| ScheduleBuilders.ScheduleBuilder.Build | src/io/github/rowak/nanoleafapi/schedule/builder/ScheduleBuilder.java:33-52 | The fill-ins happen first. Then a null action or repeat is a NullPointerException, so a failing build has already changed the schedule; otherwise the same schedule object is returned. |
| ScheduleBuilders.ScheduleBuilder.SetId | src/io/github/rowak/nanoleafapi/schedule/builder/ScheduleBuilder.java:59-63 | Only id changes, and the builder is returned. |
| ScheduleBuilders.ScheduleBuilder.SetSetId | src/io/github/rowak/nanoleafapi/schedule/builder/ScheduleBuilder.java:73-77 | Only setId changes. |
| ScheduleBuilders.ScheduleBuilder.SetEnabled | src/io/github/rowak/nanoleafapi/schedule/builder/ScheduleBuilder.java:84-88 | Only enabled changes. |
| ScheduleBuilders.ScheduleBuilder.SetStartTime | src/io/github/rowak/nanoleafapi/schedule/builder/ScheduleBuilder.java:95-99 | Only the start time changes. |
| ScheduleBuilders.ScheduleBuilder.SetAction | src/io/github/rowak/nanoleafapi/schedule/builder/ScheduleBuilder.java:106-110 | Only the action changes. |
| ScheduleBuilders.ScheduleBuilder.SetRepeat | src/io/github/rowak/nanoleafapi/schedule/builder/ScheduleBuilder.java:117-121 | Only the repeat changes. |
| JavaText.ParseIntToString | src/io/github/rowak/CustomAnimDataParser.java:91 | Integer.parseInt reads back every int that Integer.toString writes. |
| JavaText.ParseDecimal | src/io/github/rowak/Effect.java:90 | Double.parseDouble on a plain decimal: none for the empty text, and a negative value only after a minus sign. |
| JavaText.ParseDecimalOfParseInt | src/io/github/rowak/Effect.java:149 | Every text parseInt accepts reads as the same number through parseDouble. |
| JavaText.ParseDecimalFraction | src/io/github/rowak/Effect.java:149 | Digits, a point and digits read as the whole part plus the fraction digits over the matching power of ten. |
| JavaText.ParseHalf | src/io/github/rowak/Effect.java:90 | "0.5" reads as one half. |
| Json.GetDouble | src/io/github/rowak/Effect.java:90 | getDouble succeeds exactly on a present number or a numeric string, giving the Double, the integer as a double or the parsed text; every failure is a JSONException. |
| Json.GetDoubleOfText | src/io/github/rowak/Effect.java:149 | getDouble reads the text "0.5" as one half. |
| JavaText.SplitJoinInts | src/io/github/rowak/CustomAnimDataParser.java:87 | Splitting integers written with single spaces on ' ' gives each integer's text. |
| JavaText.Split | src/io/github/rowak/CustomAnimDataParser.java:87 | String.split on one character: the whole string when the separator is absent, and otherwise the fields with trailing empty ones removed. |
| JavaText.TrimUntouched | src/io/github/rowak/nanoleafapi/AuroraMetadata.java:70 | trim leaves a string alone when it has no white space at either end. |
| JavaText.IndexOfFirst | src/io/github/rowak/nanoleafapi/AuroraMetadata.java:71-77 | indexOf gives the first start of the pattern, and -1 exactly when the pattern does not occur. |
| JavaText.Substring | src/io/github/rowak/nanoleafapi/AuroraMetadata.java:71-78 | substring fails exactly outside 0 <= b <= e <= length, and otherwise has length e - b. |

## Left out

- Sockets, threads and timing in `Query`. The model leaves out multicast I/O, the TTL and timeout settings, the listener thread, and the `socketLock` polling in `isServerIsListening`. `start()` is not implemented in the source, so it is not modelled. Each received datagram is an input event (timeout, read failure, parse failure, or a response that does or does not answer the asked questions). Sends are appended to a log, and the listener runs after the initial ask is sent. The wall-clock browsing time is modelled as the end of the event sequence.
- MdnsQuery.Query.RunOnce: requires a query that has asked and recorded nothing. The source keeps `questions` and `records` across a second `runOnce`, and that reuse is not modelled.
- MdnsQuery.Query.Ask: does not model an IOException from `askOn`. A send failure inside the listen loop is swallowed by the source, and the model treats every send as succeeding.
- `Question.answeredBy` and `Response.answers` are given as inputs (a predicate and a flag per response). `Instance.createFromRecords` is represented by the PTR and the record set it is built from. `Question`, `Response`, `Instance`, `Message` and the record classes are not part of this model beyond the fields read here. The source's lists gathered from a `HashSet` stream are modelled as set iteration.
- `UnknownRecord`'s base class `Record` is not part of this model: the record class is kept as its integer code, and the record is the value of the three fields.
- Floating point: colour conversion (`Color`, `Frame(Color, int)`, `Panel.getColor`) is left out. Double formatting in `toJSON` (flowFactor, explodeFactor, probability) is a function parameter. `Panel.getNeighbors`' `Math.floor(Math.sqrt(...)) == 86` is its exact integer form (7396 <= d < 7569).
- `io.github.rowak.Frame`, `io.github.rowak.Panel` and `Aurora.Panel` are not part of this model. The parsers and `StaticEffectBuilder` use the `nanoleafapi` `Frame` value, and the builders take the layout as a sequence of panel ids (with colours for `createStaticEffect`). The controller's panel count is a parameter.
- StaticEffectBuilding.StaticEffectBuilder.Build: returns the animData text, not the Effect. The two-argument `Effect.createStaticEffect` that `build` calls is not part of this model.
- The six attribute effect builders, `EffectBuilder`, `Aurora`, both `Setup` classes, `Plugin`, `ScheduleActionBuilder`, the sample programs and `test.java` are not part of this model. They are an HTTP client, SSDP discovery or delegation only.
- The org.json text grammar is not modelled: JSON is a value datatype and objects are maps. `nanoleafapi.Effect.toJSON` is stated on the object, not on its text. `nanoleafapi.Effect.equals` (a comparison of `toString` texts), `getPalette`/`jsonToPalette` and its two `createStaticEffect` and `createCustomEffect` variants are not modelled. They need the `Aurora` controller, `Color` conversion or the JSON text.
- NanoleafEffects.NanoleafEffect.SetPalette: takes the palette as the JSON objects of its colours. The `Color` bean conversion is not modelled.
- Aliasing of nested objects: `Schedule`, `ScheduleAction` and `ScheduleBuilder.setAction`/`setRepeat` keep the value the nested object has at the call. A later change to the nested object is not seen.
- Calendar: dates are the five-field record, with no normalisation. The year-2999 sentinel written as {year: 3000, month: 0, …} therefore reads back as its raw fields (DefaultEndTimeRead), not as a normalised date. Seconds and milliseconds are not modelled, and the current time is a parameter.
- UUID randomness: the two UUIDs are parameters, and only the "A--B" shape of the set id is stated.
- `ScheduleBuilder` builds a `nanoleafapi.schedule.Schedule`, which is not part of this model; the `io.github.rowak.schedule.Schedule` model stands in for it. Likewise `ScheduleAction`'s `ScheduleEffects` is modelled by `nanoleafapi.schedule.ScheduleEffects`.
- Enum names in JSON: `toJSON` of `ScheduleEffects` and `ScheduleRepeat` puts the enum object, which org.json writes as its name. A JSON round trip of random_type and interval_type therefore fails, and this is proved (EffectsNotReadBack, RepeatNotReadBack).
- Java `null` for plain `String` arguments is `None` only where the source checks for null or dereferences the value.
- CustomEffectBuilding.CustomEffectBuilder.Build: requires every list to hold at most `Integer.MAX_VALUE` frames, which an `ArrayList` cannot exceed.
- AuroraMetadatas.FromMdnsInstance: the `InetAddress` lookups (`getHostName`, `getHostAddress`) are given as the two strings each address yields.
- AuroraMetadatas.SsdpRoundTrip: states the read-back only for replies whose leading text has no 'L', 'v' or 'm' (so not a head carrying `CACHE-CONTROL: max-age=…`), whose host and port have no ':', 'v' or 'm' and whose device id has no 'm'. Other replies are covered only by SsdpDevice's error statement.
- AuroraMetadatas.SsdpPortRoundTrip: carries the same restrictions on the leading text and the fields as SsdpRoundTrip.
- Json.GetDouble: a string is read only in the plain decimal form of JavaText.ParseDecimal (a sign, digits, a point). Exponents, "NaN", "Infinity", hexadecimal forms, surrounding white space and the 'd'/'f' suffixes that Double.parseDouble also accepts are a JSONException here. The decimal is exact, not rounded to the nearest double.
- EffectJson.ColorFromJson: inherits Json.GetDouble's string form, so a probability such as "5e-1" reads as -1.
- EffectJson.AttributesFrom: inherits Json.GetDouble's string form, so an explodeFactor such as "5e-1" is a JSONException.
- EffectJson.FromJson: the same, through AttributesFrom.
- NanoleafEffects.Cleaned: inherits Json.GetDouble's string form, so a probability such as "5e-1" is a JSONException.
- JavaText.ParseInt: accepts only the ASCII digits '0' to '9'. Java's Integer.parseInt also takes the other Unicode decimal digits (for example the full-width "３"), so AnimData.ParseAll, AnimData.DataTokens, Json.AsInt and Json.GetInt reject texts the source reads.
- JavaText.ToUpper: changes only ASCII letters and ignores the default locale. Java's toUpperCase also maps other letters ("plugın" with a dotless i becomes "PLUGIN"), and under a Turkish locale "i" becomes a dotted capital I, so EffectJson.CommonFrom can differ from `Type.valueOf(… .toUpperCase())`.
- JavaText.ToLower: the same for toLowerCase. It affects NanoleafEffects.TypeText and NanoleafEffects.DirectionText (under a Turkish locale "HIGHLIGHT" lower-cases with dotless i's in the source), EffectJson.ValueText (the animType written by toJSON) and Json.GetBoolean (equalsIgnoreCase folds more than ASCII letters).
- Strings are sequences of code points, and Java's length, indexOf and substring count UTF-16 units. For text outside the Basic Multilingual Plane, AuroraMetadatas.FromSsdpPacketData's `length()-1` and its offsets count differently from JavaText.Substring and JavaText.IndexOf.
- AnimData.DecodeBlocks: models the corrected parser, which rejects every negative frame count. As written, a negative count loops, throws or returns frames read from overlapping positions (see Findings).
- AnimData.ParseCustom: the corrected parser, as for DecodeBlocks.
- CustomAnimDataParsing.DecodeFrom: the corrected cursor reading, as for DecodeBlocks.
- CustomAnimDataParsing.Create: fills the maps by the corrected parser, as for DecodeBlocks.
- CustomAnimDataParsing.CustomAnimDataParser.Parse: the corrected parser, as for DecodeBlocks.
- CustomAnimDataParsing.CustomAnimDataParser.ParseBlocks: the corrected loop, as for DecodeBlocks.
- CustomAnimDataParsing.CustomAnimDataParser.ReadBlock: rejects a negative count instead of moving the cursor backwards, as for DecodeBlocks.

## Findings

| source | as written | input that shows it | evidently intended | confidence | as-written member | corrected member |
|---|---|---|---|---|---|---|
| src/io/github/rowak/CustomAnimDataParser.java:99-124 | A negative numFrames runs no frame and moves the cursor `x += 2 + 5*numFrames` backwards. | `data 1 0 1 0 1 0 1 0 1 -2`: after five blocks the cursor is back at 0, so `parse` never returns. | A negative frame count is rejected as malformed data. | not executed | CustomAnimDataParsing.AsWrittenCycles | CustomAnimDataParsing.CycleDataRejected |
| src/io/github/rowak/CustomAnimDataParser.java:99-124 | The same backward cursor can also reach data.length after reading a frame from integers that belong to earlier blocks. | `9 1 0 1 0 9 -1 0 0`: the cursor goes 0, 2, 4, 1, 8, and `parse` returns frame (0, 9, -1, 0, 0) for panel 0. | A negative frame count is rejected as malformed data. | not executed | CustomAnimDataParsing.AsWrittenFinishes | CustomAnimDataParsing.FinishRejected |
| src/io/github/rowak/CustomAnimDataParser.java:99-124 | The same backward cursor can also become negative while still below data.length, and `data[x]` then throws. | `2 9 -1`: the cursor becomes -3 and `data[-3]` is an ArrayIndexOutOfBoundsException. | A negative frame count is rejected as malformed data. | not executed | CustomAnimDataParsing.AsWrittenThrows | CustomAnimDataParsing.ThrowRejected |
| src/io/github/rowak/Effect.java:927-930 | `removeFrame` looks the map up by the `Aurora.Panel` object, but the keys are `Integer` ids, so `get` returns null and `remove` throws. | Any call, e.g. removing a frame just added to a layout panel. | Look the list up by `panel.getId()`, as `addFrame` does, and remove the first equal frame. | not executed | LocalEffects.Animation.RemoveFrame | LocalEffects.Animation.RemoveFrameById |
