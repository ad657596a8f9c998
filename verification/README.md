# Leak-event health updater, MAC normalisation and Redfish `$expand`, in Dafny

This project models four small pieces of a bare-metal fleet manager and proves
properties of them.

- **Leak-event processor** (`health_updater.dfy`, `health_updater_laws.dfy`).
  The DSX exchange consumer reads BMS leak-detection points from MQTT topics
  `{prefix}{pointPath}/Metadata` and `{prefix}{pointPath}/Value`. It caches
  the metadata of supported leak points. When a point's binary value changes,
  it inserts a rack health report (on a fault) or removes it (on a clear)
  through a sink. A value is remembered for deduplication only when the sink
  call succeeds. `HealthUpdater.Updater` is a class whose two caches are maps
  updated in place. `HealthUpdater.Sink` records every call, and a
  caller-supplied oracle decides which calls succeed. Each message method is
  proved to perform one step of the pure state machine
  `OnMetadata`/`OnValue`/`RunSteps`. Time-to-live expiry is a pair of further
  steps, `EvictMetadata` and `EvictValue`. The methods `ExpireMetadata` and
  `ExpireValueState` are proved to perform them. `RunEvents` interleaves
  messages and evictions. The laws file proves what the processor
  guarantees about that machine, over messages alone (`RunKeepsInvariants`)
  and with evictions in between (`RunEventsKeepsInvariants`).
- **Message types** (`messages.dfy`): leak point types, their probe ids and
  descriptions, the 0/1 fault value, and the metadata support check.
- **MAC normalisation** (`network.dfy`).
  - `sanitized_mac` keeps the ASCII hex digits, demands exactly twelve, and
    puts a colon before every even index after the first.
  - The deserializers rewrite `ch:64` and the empty string to fixed
    addresses.
  - The MAC parser itself is a parameter.
- **Redfish `$expand`** (`expander_router.dfy`). This is the BMC mock's
  support for the `$expand` query of the Redfish Specification (DMTF DSP0266,
  section 7.3).
  - `expansion_level` reads the requested depth.
  - `process` returns the inner router's response unchanged, unless every
    member link of the collection can be fetched. In that case `Members`
    holds the fetched objects.
  - The inner router, JSON decoding and JSON encoding are parameters.
  - To expand a member one level less deep, `process` calls itself on the
    request `{uri}?$expand=.($level=N)`. `expansion_level` reads only the
    `$levels` form, so that request names no level (see Findings). The
    parameter `Nesting` chooses the nested request. `AsWritten` is the
    source's `.($level=N)`. `Corrected` is the `.($levels=N)` form that
    `expansion_level` reads.
  - The method `Process` and its helpers are proved equal to the function
    `ProcessSpec` for either choice. The lemmas characterise `ProcessSpec`.

Shared helpers: `wrappers.dfy` (`Option`, `Result`) and `text.dfy` (prefix and
suffix stripping, `u8::from_str`, decimal formatting).

## Model

| member | source | states |
|---|---|---|
| Text.StripSuffix | crates/dsx-exchange-consumer/src/health_updater.rs:247-249 | succeeds exactly when the text ends with the suffix, and the text is the result followed by the suffix |
| Text.StripPrefix | crates/dsx-exchange-consumer/src/health_updater.rs:250 | succeeds exactly when the text starts with the prefix, and the text is the prefix followed by the result |
| Text.UnsignedDigits | crates/bmc-mock/src/redfish/expander_router.rs:204 | the digits `u8::from_str` reads: the text without its leading `+` when it has one, otherwise the whole text |
| Text.ParseU8 | crates/bmc-mock/src/redfish/expander_router.rs:204 | `u8::from_str`: succeeds if and only if the text, without one optional leading `+`, is one or more digits with a value below 256, and then the value is that of the digits; a result needs a leading `+` or digit |
| Text.Decimal | crates/bmc-mock/src/redfish/expander_router.rs:126-130 | the `{}` text of a number is non-empty, all digits, has no leading zero and reads back as the number |
| Text.ParseDecimal | crates/bmc-mock/src/redfish/expander_router.rs:126-130 | parsing the formatted text of any `u8` gives it back |
| Text.LeadingZerosIgnored | crates/bmc-mock/src/redfish/expander_router.rs:204 | any number of leading zeros before the decimal text of a `u8` still parses to it |
| Text.ParsePlusDecimal | crates/bmc-mock/src/redfish/expander_router.rs:204 | a leading `+` before the decimal text of a `u8` still parses to it |
| Text.MinusRejected | crates/bmc-mock/src/redfish/expander_router.rs:204 | no text starting with `-` parses |
| Messages.ProbeId | crates/dsx-exchange-consumer/src/messages.rs:38-46 | the probe id is `Bms` followed by the variant's name |
| Messages.Description | crates/dsx-exchange-consumer/src/messages.rs:49-55 | every leak type has a non-empty description |
| Messages.TablesInjective | crates/dsx-exchange-consumer/src/messages.rs:38-55 | distinct leak types have distinct probe ids, descriptions and names |
| Messages.Encode | crates/dsx-exchange-consumer/src/messages.rs:71-81 | serialises to 0 or 1, and to 0 exactly for `Clear` |
| Messages.DecodeU64 | crates/dsx-exchange-consumer/src/messages.rs:97-105 | decoding succeeds exactly for 0 and 1; 1 is `Faulting`; any other value fails with an error that carries it |
| Messages.DecodeEncode | crates/dsx-exchange-consumer/src/messages.rs:71-105 | decoding the serialised value gives it back |
| Messages.EncodeDecode | crates/dsx-exchange-consumer/src/messages.rs:71-105 | a number that decodes is the serialisation of what it decodes to |
| Messages.IsSupportedLeakType | crates/dsx-exchange-consumer/src/messages.rs:156-161 | reference definition with no contract of its own: the three supported point-type names; characterised by `LeakPointTypeOf`, `LeakPointTypeOfName` and `LiquidIsolationUnsupported` |
| Messages.LeakPointTypeOf | crates/dsx-exchange-consumer/src/messages.rs:164-171 | a leak type is found exactly for supported metadata, and its name is the metadata's point type |
| Messages.LeakPointTypeOfName | crates/dsx-exchange-consumer/src/messages.rs:154-171 | the metadata maps to a leak type if and only if its point type is that type's name |
| Messages.LiquidIsolationUnsupported | crates/dsx-exchange-consumer/src/messages.rs:259-269 | the liquid-isolation status point is neither supported nor given a leak type |
| HealthUpdater.ExtractPointPath | crates/dsx-exchange-consumer/src/health_updater.rs:246-251 | a point path is found only in a topic made of the prefix, the path and `/Metadata` or `/Value`; a topic with neither suffix has none |
| HealthUpdaterLaws.ExtractFromMetadataTopic | crates/dsx-exchange-consumer/src/health_updater.rs:357-364 | the path is recovered from any `{prefix}{path}/Metadata` topic |
| HealthUpdaterLaws.ExtractFromValueTopic | crates/dsx-exchange-consumer/src/health_updater.rs:366-373 | the path is recovered from any `{prefix}{path}/Value` topic |
| HealthUpdater.BuildLeakAlertReport | crates/dsx-exchange-consumer/src/health_updater.rs:216-241 | one alert, from the consumer's source, with no successes; the alert targets the rack, carries the probe id and the three leak classifications, has no tenant message, and its message is the description, ` on rack `, the rack name and the rack id in parentheses |
| HealthUpdater.CallFor | crates/dsx-exchange-consumer/src/health_updater.rs:169-194 | the sink call names the metadata's rack, and is an insert exactly for a fault |
| HealthUpdater.OnMetadata | crates/dsx-exchange-consumer/src/health_updater.rs:84-104 | reference definition with no contract of its own; characterised by `UnsupportedMetadataIgnored`, `SupportedMetadataOverwrites` and `MetadataKeepsSupported` |
| HealthUpdater.OnValue | crates/dsx-exchange-consumer/src/health_updater.rs:106-212 | reference definition with no contract of its own; characterised by `ValueWithoutMetadataIsNoop`, `DuplicateValueSkipped`, `ChangedValueCallsSinkOnce` and `OtherPathsUntouched` |
| HealthUpdater.Step | crates/dsx-exchange-consumer/src/health_updater.rs:70-78 | reference definition with no contract of its own: a metadata message goes to `OnMetadata`, a value message to `OnValue`; characterised by `StepKeepsInvariants` |
| HealthUpdater.RunSteps | crates/dsx-exchange-consumer/src/health_updater.rs:67-82 | reference definition with no contract of its own: the messages in arrival order; characterised by `RunKeepsInvariants`, `RepeatedValueCallsOnce` and `RunMetadataThenFault` |
| HealthUpdater.EvictMetadata | crates/dsx-exchange-consumer/src/health_updater.rs:46-48 | expiry removes the metadata for the path; every other entry keeps its value, and the values and the log are unchanged |
| HealthUpdater.EvictValue | crates/dsx-exchange-consumer/src/health_updater.rs:50-52 | expiry removes the value remembered for the path; every other entry keeps its value, and the metadata and the log are unchanged |
| HealthUpdater.Apply | crates/dsx-exchange-consumer/src/health_updater.rs:46-78 | reference definition with no contract of its own: a delivered message is a `Step`, an expiry an eviction; characterised by `RunEventsKeepsInvariants` |
| HealthUpdater.RunEvents | crates/dsx-exchange-consumer/src/health_updater.rs:46-82 | reference definition with no contract of its own: the events in order; characterised by `RunEventsKeepsInvariants` |
| HealthUpdater.Sink.constructor | crates/dsx-exchange-consumer/src/health_updater.rs:300-317 | a new sink has recorded no calls |
| HealthUpdater.Sink.Call | crates/dsx-exchange-consumer/src/health_updater.rs:320-337 | every call is appended to the log, and its success is the oracle's answer for that position and call |
| HealthUpdater.Updater.constructor | crates/dsx-exchange-consumer/src/health_updater.rs:39-64 | both caches start empty |
| HealthUpdater.Updater.HandleMetadataMessage | crates/dsx-exchange-consumer/src/health_updater.rs:84-104 | the new state is `OnMetadata` of the old one; all cached metadata stays supported |
| HealthUpdater.Updater.HandleValueMessage | crates/dsx-exchange-consumer/src/health_updater.rs:106-212 | the new state, sink log included, is `OnValue` of the old one |
| HealthUpdater.Updater.Run | crates/dsx-exchange-consumer/src/health_updater.rs:67-82 | processing a message sequence in order gives `RunSteps` of the old state |
| HealthUpdater.Updater.ExpireMetadata | crates/dsx-exchange-consumer/src/health_updater.rs:46-48 | a time-to-live eviction is the step `EvictMetadata` of the old state, and keeps the updater well formed |
| HealthUpdater.Updater.ExpireValueState | crates/dsx-exchange-consumer/src/health_updater.rs:50-52 | a time-to-live eviction is the step `EvictValue` of the old state, and keeps the updater well formed |
| HealthUpdaterLaws.UnsupportedMetadataIgnored | crates/dsx-exchange-consumer/src/health_updater.rs:85-91 | metadata of an unsupported type changes nothing |
| HealthUpdaterLaws.UnsupportedMetadataThenValue | crates/dsx-exchange-consumer/src/health_updater.rs:525-549 | after unsupported metadata, a value for that point changes nothing and calls no sink |
| HealthUpdaterLaws.SupportedMetadataOverwrites | crates/dsx-exchange-consumer/src/health_updater.rs:93-103 | supported metadata is stored under its path, replacing any earlier entry; values and the log are untouched |
| HealthUpdaterLaws.MetadataKeepsSupported | crates/dsx-exchange-consumer/src/health_updater.rs:84-103 | the metadata cache only ever holds supported types |
| HealthUpdaterLaws.ValueWithoutMetadataIsNoop | crates/dsx-exchange-consumer/src/health_updater.rs:107-125 | a value for a bad topic or an uncached point changes nothing |
| HealthUpdaterLaws.DuplicateValueSkipped | crates/dsx-exchange-consumer/src/health_updater.rs:154-166 | a value equal to the remembered one changes nothing |
| HealthUpdaterLaws.ChangedValueCallsSinkOnce | crates/dsx-exchange-consumer/src/health_updater.rs:168-199 | a new value makes exactly one call on the point's rack: an insert of the leak report for a fault, a remove for a clear; the value is remembered exactly when the call succeeds; metadata is unchanged |
| HealthUpdaterLaws.OtherPathsUntouched | crates/dsx-exchange-consumer/src/health_updater.rs:146-149 | a value message changes no other point's remembered value or metadata |
| HealthUpdaterLaws.SameValueTwiceCallsOnce | crates/dsx-exchange-consumer/src/health_updater.rs:551-581 | the same value twice, with the first call succeeding, calls the sink once |
| HealthUpdaterLaws.FailedCallIsRetried | crates/dsx-exchange-consumer/src/health_updater.rs:625-657 | after a failed call nothing is remembered, and the same value calls the sink again |
| HealthUpdaterLaws.FaultClearFault | crates/dsx-exchange-consumer/src/health_updater.rs:583-623 | fault, clear, fault make insert, remove, insert on the rack |
| HealthUpdaterLaws.DistinctPathsIndependent | crates/dsx-exchange-consumer/src/health_updater.rs:659-707 | faults on two different points each insert a report for their own rack |
| HealthUpdaterLaws.RepeatedValueCallsOnce | crates/dsx-exchange-consumer/src/health_updater.rs:154-166 | any number of repeats of an accepted value leave the state of the first one: a single sink call |
| HealthUpdaterLaws.RunMetadataThenFault | crates/dsx-exchange-consumer/src/health_updater.rs:440-470 | metadata and then a fault, from empty caches, insert exactly one leak report for the rack |
| HealthUpdaterLaws.StepKeepsInvariants | crates/dsx-exchange-consumer/src/health_updater.rs:84-212 | one message keeps the cached metadata supported; for every remembered value the log holds some call the sink accepted of the same kind (an insert for a fault, a remove for a clear), on no particular rack; the log only grows |
| HealthUpdaterLaws.RunKeepsInvariants | crates/dsx-exchange-consumer/src/health_updater.rs:67-82 | after any message sequence the cached metadata stays supported, every remembered value has some accepted call of the same kind (insert or remove) in the log, and the log only grows |
| HealthUpdaterLaws.EvictionKeepsInvariants | crates/dsx-exchange-consumer/src/health_updater.rs:46-52 | either eviction keeps the cached metadata supported and leaves every remaining value with some accepted call of the same kind (insert or remove) in the log, and leaves the log alone |
| HealthUpdaterLaws.EvictedValueCallsAgain | crates/dsx-exchange-consumer/src/health_updater.rs:50-52 | once the remembered value has expired, the same value calls the sink again with the point's call |
| HealthUpdaterLaws.RunEventsKeepsInvariants | crates/dsx-exchange-consumer/src/health_updater.rs:46-82 | after any sequence of messages and evictions the cached metadata stays supported, every remembered value has some accepted call of the same kind (insert or remove) in the log, and the log only grows |
| Network.StripNonHex | crates/network/src/lib.rs:61-64 | the result is all hex digits and no longer than the input |
| Network.StripDistributes | crates/network/src/lib.rs:61-64 | the hex filter distributes over concatenation |
| Network.StripFixesHex | crates/network/src/lib.rs:61-64 | the filter leaves a string unchanged if and only if it is all hex |
| Network.StripKeepsHexCounts | crates/network/src/lib.rs:61-64 | the filter keeps every hex character as often as it occurs and drops every other character |
| Network.StripBetweenHexRuns | crates/network/src/lib.rs:61-64 | non-hex text between two hex runs disappears |
| Network.InsertColons | crates/network/src/lib.rs:76-86 | the colon fold adds one colon per pair after the first |
| Network.ColonLayout | crates/network/src/lib.rs:76-86 | every third position of the folded text is a colon, and the others are the input characters in order |
| Network.StripInsertColons | crates/network/src/lib.rs:61-86 | stripping the folded text of a hex string gives the string back |
| Network.ColonMacByIndex | crates/network/src/lib.rs:76-86 | the colon form `xx:xx:xx:xx:xx:xx` is exactly colons at every third position and hex digits elsewhere |
| Network.ColonMacOfTwelve | crates/network/src/lib.rs:66-86 | twelve hex digits fold into the colon form |
| Network.SanitizedText | crates/network/src/lib.rs:53-86 | a result exists if and only if the input has exactly twelve hex digits; it is in colon form, it is the colon fold of exactly those digits, and removing its colons gives back the input's hex digits in order |
| Network.SanitizedMac | crates/network/src/lib.rs:53-89 | a wrong hex count is a length error carrying the count, the input and the stripped text; otherwise the parser's verdict on the sanitised text, a refusal carrying the parser's error, the input, the stripped text and the sanitised text |
| Network.ColonMacFixed | crates/network/src/lib.rs:184-191 | a MAC already in colon form is returned unchanged |
| Network.SanitizeIdempotent | crates/network/src/lib.rs:53-86 | sanitising a sanitised MAC changes nothing |
| Network.CleanMacUnchanged | crates/network/src/lib.rs:184-191 | `DE:ED:0F:BE:EF:99` is returned unchanged |
| Network.TooLongMacRejected | crates/network/src/lib.rs:202-206 | the over-long test MAC is rejected |
| Network.SpecialMacsInColonForm | crates/network/src/lib.rs:37-42 | the replacement addresses are in colon form and sanitise to themselves |
| Network.RewriteSpecialMac | crates/network/src/lib.rs:150-157 | the text changes exactly for `ch:64` and the empty string, and is never empty afterwards |
| Network.RewriteIdempotent | crates/network/src/lib.rs:150-157 | rewriting twice is the same as rewriting once |
| Network.DeserializeInputMacToAddress | crates/network/src/lib.rs:150-161 | `ch:64` parses as `00:00:00:00:00:64`, the empty string as all zeros, anything else as itself |
| Network.DeserializeMlxMac | crates/network/src/lib.rs:113-125 | succeeds with the same address exactly when the rewrite parses; a failure carries the input and the cause |
| Network.DeserializeOptionalMlxMac | crates/network/src/lib.rs:127-146 | an absent value is `None`; a present one gives the non-optional result, wrapped in `Some` |
| ExpanderRouter.QueryParam | crates/bmc-mock/src/redfish/expander_router.rs:190-194 | a value is found exactly when some pair has the key; it is the value of a pair with the key that no later pair with the key follows, so the last pair wins |
| ExpanderRouter.AfterLastEquals | crates/bmc-mock/src/redfish/expander_router.rs:197 | the result is a suffix with no `=`, preceded by `=` unless it is the whole text |
| ExpanderRouter.WithoutCloseParens | crates/bmc-mock/src/redfish/expander_router.rs:197 | no `)` is left and the text gets no longer; a single character is dropped exactly when it is `)` |
| ExpanderRouter.AfterLastEqualsOf | crates/bmc-mock/src/redfish/expander_router.rs:197 | after a text ending in `=`, the last segment is whatever follows |
| ExpanderRouter.LevelText | crates/bmc-mock/src/redfish/expander_router.rs:196-202 | a level text exists if and only if the value starts with `.($levels=` or `*($levels=`, or is `*` or `.`; for a `$levels` form it is the text after the last `=` with every `)` removed; for `*` and `.` it is `1` |
| ExpanderRouter.WithoutCloseParensKeeps | crates/bmc-mock/src/redfish/expander_router.rs:197 | text without `)` is unchanged |
| ExpanderRouter.WithoutCloseParensConcat | crates/bmc-mock/src/redfish/expander_router.rs:197 | removing `)` distributes over concatenation, so every other character is kept, in order |
| ExpanderRouter.WithoutTrailingParen | crates/bmc-mock/src/redfish/expander_router.rs:197 | a trailing `)` is the only thing removed |
| ExpanderRouter.ExpansionLevel | crates/bmc-mock/src/redfish/expander_router.rs:188-208 | no query string, no level; a level needs an `$expand` parameter with a level text, and whenever both exist the level is `u8::from_str` of that text |
| ExpanderRouter.LevelsFormText | crates/bmc-mock/src/redfish/expander_router.rs:196-197 | `.($levels=T)` and `*($levels=T)` name exactly `T` |
| ExpanderRouter.LevelsFormRoundTrip | crates/bmc-mock/src/redfish/expander_router.rs:196-204 | the `$levels` form names the decimal text of its level |
| ExpanderRouter.StarOrDotIsOne | crates/bmc-mock/src/redfish/expander_router.rs:198-199 | `$expand=*` and `$expand=.` give level 1 |
| ExpanderRouter.OtherExpandFormsIgnored | crates/bmc-mock/src/redfish/expander_router.rs:196-202 | any other `$expand` value gives no level |
| ExpanderRouter.QueryParamLastWins | crates/bmc-mock/src/redfish/expander_router.rs:190-192 | collecting the pairs into a map keeps the last value given for the key |
| ExpanderRouter.LastExpandWins | crates/bmc-mock/src/redfish/expander_router.rs:190-194 | the last `$expand` in the query decides the level |
| ExpanderRouter.OutOfRangeLevelIgnored | crates/bmc-mock/src/redfish/expander_router.rs:204 | a `$levels` value of 256 or more gives no level |
| ExpanderRouter.NonNumericLevelIgnored | crates/bmc-mock/src/redfish/expander_router.rs:196-204 | a non-empty `$levels` value that is not all digits and does not start with `+` gives no level |
| ExpanderRouter.NestedRequest | crates/bmc-mock/src/redfish/expander_router.rs:122-133 | the corrected nested request asks for exactly the level it was built with |
| ExpanderRouter.NestedRequestAsWritten | crates/bmc-mock/src/redfish/expander_router.rs:126-129 | the `.($level=N)` request that the source builds names no level, for any `N` |
| ExpanderRouter.Nested | crates/bmc-mock/src/redfish/expander_router.rs:122-133 | as written, the nested request asks for no expansion; corrected, it asks for exactly the level it was built with |
| ExpanderRouter.NestedLevelsRoundTrip | crates/bmc-mock/src/redfish/expander_router.rs:122-133 | `.($levels=N)` is read back as `N` for every `u8` |
| ExpanderRouter.NestedExpansionLostAsWritten | crates/bmc-mock/src/redfish/expander_router.rs:122-133 | a nested request built as written is answered unexpanded by the inner router |
| ExpanderRouter.LevelsCollapseAsWritten | crates/bmc-mock/src/redfish/expander_router.rs:122-141 | as written, a member fetched at any level is fetched as at level 1 whenever the inner router answers the `.($level=N)` member request as it answers the plain member link |
| ExpanderRouter.CorrectedNestsOneLevelLess | crates/bmc-mock/src/redfish/expander_router.rs:122-133 | corrected, a member fetched at level `L` above 1 is processed again at exactly level `L - 1` |
| ExpanderRouter.MemberIds | crates/bmc-mock/src/redfish/expander_router.rs:91-110 | at most one link per member |
| ExpanderRouter.MemberIdsComplete | crates/bmc-mock/src/redfish/expander_router.rs:91-115 | the length check passes if and only if every member is an object with a string `@odata.id`, and then the links are those ids in order |
| ExpanderRouter.MembersValue | crates/bmc-mock/src/redfish/expander_router.rs:76-87 | a value exists if and only if the object has `Members` or `members`; it is the value of `Members` when that key is present, otherwise the value of `members` |
| ExpanderRouter.FollowableIds | crates/bmc-mock/src/redfish/expander_router.rs:91-110 | the loop collects exactly the members' links |
| ExpanderRouter.Collect | crates/bmc-mock/src/redfish/expander_router.rs:166-168 | succeeds if and only if every result is present, keeping them all in order |
| ExpanderRouter.FetchMember | crates/bmc-mock/src/redfish/expander_router.rs:122-163 | reference definition with no contract of its own: a nested `ProcessSpec` on `Nested(nest, uri, level - 1)` above level 1, the inner router at level 1, then status and body checks; characterised by `LevelsCollapseAsWritten` and `CorrectedNestsOneLevelLess` |
| ExpanderRouter.FetchAll | crates/bmc-mock/src/redfish/expander_router.rs:117-168 | reference definition with no contract of its own: `Collect` of each link's `FetchMember`; characterised by `FetchAllFails` and `FetchAllSucceeds` |
| ExpanderRouter.ProcessSpec | crates/bmc-mock/src/redfish/expander_router.rs:45-186 | reference definition with no contract of its own; characterised by `ProcessOutcomes`, the four `PassThrough` lemmas, `ProcessSpecExpands` and `ExpandsWhenAllMembersFetched` |
| ExpanderRouter.FetchOne | crates/bmc-mock/src/redfish/expander_router.rs:122-163 | fetches a member as `FetchMember` specifies for the chosen `Nesting`: a nested `process` above level 1 (`AsWritten` is the source's request), the inner router at level 1; a failed status or a bad body gives nothing |
| ExpanderRouter.FetchMembers | crates/bmc-mock/src/redfish/expander_router.rs:117-168 | fetches every link in order and collects them as `FetchAll` specifies |
| ExpanderRouter.FetchAllFails | crates/bmc-mock/src/redfish/expander_router.rs:166-177 | one failed member fetch fails the whole expansion |
| ExpanderRouter.FetchAllSucceeds | crates/bmc-mock/src/redfish/expander_router.rs:166-171 | when every member fetch succeeds, the collected list exists, has one entry per link, and holds each link's fetch result in order |
| ExpanderRouter.ProcessSpecExpands | crates/bmc-mock/src/redfish/expander_router.rs:170-186 | once the level, status, body, links and fetches all succeed, the answer is 200 with the expanded object |
| ExpanderRouter.ExpandedFields | crates/bmc-mock/src/redfish/expander_router.rs:83-179 | the expanded object has `Members` set to the fetched list and no `members`; every other key is kept with its value |
| ExpanderRouter.Process | crates/bmc-mock/src/redfish/expander_router.rs:45-186 | the response is `ProcessSpec` of the request for the chosen `Nesting`; with `AsWritten` that is the source as written |
| ExpanderRouter.PassThroughWithoutExpansion | crates/bmc-mock/src/redfish/expander_router.rs:50-61 | with no level, level 0 or a failed inner status, the inner response is returned |
| ExpanderRouter.PassThroughWithoutMembersArray | crates/bmc-mock/src/redfish/expander_router.rs:76-87 | a body that is not an object with a `Members` (or else `members`) array is returned unchanged |
| ExpanderRouter.PassThroughOnUnfollowableMember | crates/bmc-mock/src/redfish/expander_router.rs:112-115 | one member without a string `@odata.id` makes the original response come back |
| ExpanderRouter.PassThroughOnFailedFetch | crates/bmc-mock/src/redfish/expander_router.rs:170-177 | one failed member fetch makes the original response come back |
| ExpanderRouter.ExpandsWhenAllMembersFetched | crates/bmc-mock/src/redfish/expander_router.rs:170-186 | when everything succeeds, the answer is 200 with `Members` holding each member's fetch result, one per link in link order |
| ExpanderRouter.ProcessOutcomes | crates/bmc-mock/src/redfish/expander_router.rs:45-186 | the answer is the inner response, or a 200 response carrying the expanded form of the decoded object |

## Left out

- Concurrency is not modelled: the message channel, moka's per-key serialisation in `and_try_compute_with`, and `join_all`. All processing is sequential. The sink and the inner router are pure, so fetching the members one after another gives the same result as fetching them concurrently.
- Time-to-live eviction: when an entry expires is decided by the cache library and the clock, which are not modelled. An expiry is an event that may come between any two messages (`RunEvents`), and the proved invariants hold whichever evictions happen and whenever they happen.
- Timestamps are not modelled: `observed_at`, `in_alert_since` and the `ts_seconds` decoding of value messages.
- Floating-point decoding of fault values (`visit_f64`) is not modelled. Only the integer path `visit_u64` is.
- Logging, tracing and metrics counters have no effect on state and are not modelled.
- Library parsers are abstract parameters: `MacAddress::from_str` and its display, `serde_json` decoding and encoding, `form_urlencoded` decoding of query strings, and `String`/`Option` deserialisation.
- The gRPC client, configuration loading, service bootstrap and the axum router plumbing are not part of this model.
- Sink results are an oracle of the call's position and content, not a network call. Only success or failure matters to the processor.
- Process: the 500 response when the inner body cannot be read (`to_bytes` failing) is not modelled; the body is a byte sequence that is always available.
- Process: response headers are not modelled. A pass-through returns the inner response; an expansion returns status 200 and the encoded body.
- FetchMember: a member link is used as the request path. A link that carries its own query string is not split into path and query.
- FetchMember: a member link that is not a valid URI (one containing a space, say) makes the source's `Request::builder().uri(..).body(..).unwrap()` panic (expander_router.rs:124-139). The model has no panic outcome and fetches such a link like any other.
- HealthUpdaterLaws.StepKeepsInvariants: after one message, each remembered value is tied only to some accepted call of the same kind (insert or remove), not to the call made for its path or to its rack. A sink call does not name the point it was made for, so the log alone cannot say which call belongs to which path; the per-message rule, with the rack and the report, is stated exactly by `ChangedValueCallsSinkOnce`.
- HealthUpdaterLaws.RunKeepsInvariants: the same gap over any message sequence: a remembered value is tied only to some accepted call of the same kind, not to its path's rack.
- HealthUpdaterLaws.EvictionKeepsInvariants: the same gap across an eviction: each value that remains is tied only to some accepted call of the same kind, not to its path's rack.
- HealthUpdaterLaws.RunEventsKeepsInvariants: the same gap over messages interleaved with evictions: a remembered value is tied only to some accepted call of the same kind, not to its path's rack.
- JSON numbers are integers (`JNumber(int)`). serde's floating-point numbers are not represented; the expander never inspects a number, it only moves them between the decoded and the encoded body.
- Messages.Description: the contract states only non-emptiness. The exact texts are the function's body, and `TablesInjective` states that they differ.
- ExpanderRouter.MemberIds: states only the length bound. The full characterisation is `MemberIdsComplete`.
- ExpanderRouter.LevelsCollapseAsWritten: the collapse to level 1 is proved only for an inner router that answers the `.($level=N)` member request as it answers the plain link. The inner router is a parameter, so nothing more can be said. `NestedExpansionLostAsWritten` holds for every inner router: the nested request is answered by the inner router, unexpanded.

## Findings

| source | as written | input that shows it | evidently intended | confidence | as-written member | corrected member |
|---|---|---|---|---|---|---|
| crates/bmc-mock/src/redfish/expander_router.rs:127-129 | the nested request for a member is `{uri}?$expand=.($level={N-1})`, but `expansion_level` accepts only the `$levels` form (line 196), so the nested `process` sees no level and returns the member unexpanded | `GET /redfish/v1/Systems?$expand=.($levels=2)`: the members are fetched with `$expand=.($level=1)`, which names no level; when the inner router ignores that query on a member link, level 2 behaves like level 1 | build `.($levels={N-1})`, so that each nested request expands one level less | high; not executed | ExpanderRouter.LevelsCollapseAsWritten | ExpanderRouter.CorrectedNestsOneLevelLess |
