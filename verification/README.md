# Verification of the end-to-end harness

The repository drives separated nodes (a network and a pipeline process) through
scenarios and judges what it sees. This project models the parts of it that compute
something over unbounded data or drive a protocol whose guarantees the comments spell
out, and proves those guarantees:

- **Loss accounting.** A producer appends every emission to a durable log before it
  publishes, ships a mirror of the log behind, and delivers at most once to a consumer
  that goes down and comes back. `EmissionLog` is the reconciliation, `SinkDelivery` the
  reading of the consumer's output, `LossWindow` the protocol as a step relation,
  `AtMostOnce` what becomes of each emission, `LossAccounting` what may be concluded in every
  state a run reaches, and `ScenarioRun` the scenario's own run.
- **The findings register.** `Register` is the parser that finds the licences for missing
  compose twins, `RegisterPrinting` a printer and the round trip, `ComposeParity` the guard.
- **Configurations.** `Hocon` and `HoconLines` are a reader for the HOCON subset the harness
  prints (standing in for the external loader) and the printed line shapes; `NodeConfig` and
  `SeparatedConfig` are the printer and the splitter; `RenderLimits` says which
  configurations the text can carry.
- **Grants.** `Grants` and `Brokers` are the claims directory, the resolver over it and the
  broker's cache over that, and the compose broker whose claims are fixed at boot.
- **Key provisioning and the long relay.** `KeyProvisioning` is the keystore's directories;
  `Relay` the relay's identities; `LoopsBlock` the text that configures its loops and
  `LoopsRead` the loops read back from it; `RelayRun` messages
  through it; `RelayWalk` the walk back from the sink's record.

`Wrappers`, `Sorting`, `Text` and `Json` hold what these share: results, the library's
sort, its string functions, and JSON documents after parsing.

## Assumptions

- The log append precedes the publish. A checkpoint head is an injective function of the
  log prefix. Where a property needs hashes to tell records apart it says so
  (`HashesSeparate`, `DistinctHashes`, `Faithful`); most do not.
- `AddExport` and `AddImport` add to the sets of a JWT in the directory, and nothing but the
  harness writes there. A JWT is the claims it carries.
- Whether the broker's account lookup loads an account it does not have is not visible in
  the repository; the flag `loads` stands for it and everything is proved for both values.
- Saving a key pair fails when the DID's directory exists and otherwise creates it with all
  its ancestors, as `scenarios/losswindow/losswindow_test.go:430-440` describes.
- Credential hashes are injective and never empty, and what the relay's own processes sign
  verifies.

## Where the code and its documentation differ

- `readingSet` and `Unlogged` range over a map's keys whatever their values
  (`scenarios/losswindow/losswindow_test.go:155`, `internal/harness/emissionlog.go:68`), so
  a false-valued key counts as a reading, and as an unlogged credential, although `Lost`
  treats it as not delivered. Faithfulness is therefore stated on key sets; `parseSink` only
  ever stores true.
- A finding's id is cut from the whole block, not from the heading line
  (`internal/harness/parity_test.go:40`), so under a heading without a space prose can
  change it. `Register.SurvivesProseExactly` says exactly when it cannot.
- The scenario waits for the log's size before it brings the consumer back
  (`scenarios/losswindow/losswindow_test.go:266-273`). The size alone does not exclude that
  a record logged during the outage is published and delivered afterwards.
  `LossAccounting.QuiescenceNeeded` says exactly when the window is named.
- `%q` is not JSON quoting. `RenderLimits.RenderLoadsExactly` says for which strings the
  rendered text is still readable.

## Model

| member | source | states |
|---|---|---|
| `EmissionLog.ReconcileEmissionLog` | internal/harness/emissionlog.go:49-75 | The first payload that is no record (malformed, a bare string, number, boolean or array, or an object whose credentialHash or sequenceNo is neither text nor null nor absent) fails with its position and no result; any other log gives the three views: every sequence number in log order, those of undelivered records in log order, and the unlogged credentials as one sorted duplicate-free list, whatever order the map is iterated in |
| `EmissionLog.RecordsCarry` | internal/harness/emissionlog.go:55-61 | The records reconciled carry the two fields of their payloads, and a missing or null field is the empty string |
| `Text.StrLeqExactly` | internal/harness/emissionlog.go:73 | The order the unlogged list is sorted in: by the first character in which two strings differ, a string before its extensions |
| `EmissionLog.LossConserved` | internal/harness/emissionlog.go:30-31 | Delivered records and lost records together are the log's records, each once, even where records share a hash |
| `EmissionLog.SelectSound` | internal/harness/emissionlog.go:19-21 | A record counted as lost is in the log and was not delivered, one counted as delivered was |
| `EmissionLog.HashKeyedLossUndercounts` | internal/harness/emissionlog.go:30-31 | Accounting by hash never reports more than the records lost, and reports as many exactly when no two lost records share a hash |
| `EmissionLog.RenumberingInvisible` | internal/harness/emissionlog.go:13-18 | Renumbering delivered records in any way leaves Lost and Unlogged unchanged |
| `EmissionLog.ForkShowsOnlyInSequences` | internal/harness/emissionlog.go:13-18 | Forking one delivered record of a healthy log to any number shows in Sequences unless the number is the right one, and nowhere else |
| `EmissionLog.LostCannotDecideContinuity` | internal/harness/emissionlog.go:17-18 | No function of Lost and Unlogged decides whether the sequence space is continuous |
| `EmissionLog.ShortPage` | internal/harness/emissionlog.go:43-48 | On a prefix of the log Sequences and Lost are prefixes and Unlogged gains exactly the delivered hashes that occur only past the cut |
| `EmissionLog.FalseKey` | internal/harness/emissionlog.go:62-71 | A false-valued key leaves Lost alone but joins Unlogged unless a record carries it |
| `SinkDelivery.ParseSink` | scenarios/losswindow/losswindow_test.go:130-149 | The credentials of the lines that have one and the numeric readings of their payloads, other lines contributing nothing |
| `SinkDelivery.ParsedExactly` | scenarios/losswindow/losswindow_test.go:130-149 | Delivered are the non-empty credentials that lines show, and the numeric readings of exactly the lines that show one |
| `SinkDelivery.ParsedTogether` | scenarios/losswindow/losswindow_test.go:222-236 | Parsing lines that are those of two streams, in any order and however often, is the union of parsing each |
| `SinkDelivery.ReadingSet` | scenarios/losswindow/losswindow_test.go:153-164 | The key is the comma-joined ascending listing of the map's keys, whatever order they are iterated in |
| `SinkDelivery.KeyAscends` | scenarios/losswindow/losswindow_test.go:153-164 | For readings listed in strictly ascending order the key is their decimal numerals joined by commas |
| `SinkDelivery.ReadingKeyFaithful` | scenarios/losswindow/losswindow_test.go:153-164 | Two sets of readings have the same key exactly when they are equal |
| `SinkDelivery.WaitAcceptsExactly` | scenarios/losswindow/losswindow_test.go:241-256 | A delivery wait ends exactly when the delivered readings are the wanted ones: an extra, a missing or a substituted one keeps it waiting |
| `LossWindow.RunInv` | scenarios/losswindow/losswindow_test.go:258-312 | In every state of every run the mirror is a prefix of the log, what the consumer printed is what it received, the snapshot is part of that, and with a counter seeded from the tail the log is numbered from 1 without gaps |
| `LossWindow.RunGrows` | scenarios/losswindow/losswindow_test.go:276-290 | Over any run log and mirror only grow at their ends, and a record once received or dropped stays so |
| `AtMostOnce.ReceivedExactly` | scenarios/losswindow/losswindow_test.go:262-263 | In any run a record is received exactly when the run delivers it |
| `AtMostOnce.UnderWayExactly` | scenarios/losswindow/losswindow_test.go:262-263 | In any run a record is on its way exactly when it was published to a consumer that was up and neither a stop of the consumer, a drop nor its delivery has come since; whether the consumer was up is told from the events alone |
| `AtMostOnce.DeliveredWhileUp` | scenarios/losswindow/losswindow_test.go:262-263 | Every delivery in any run follows a publish to a consumer that was up, with no stop of it in between |
| `AtMostOnce.AtMostOnce` | scenarios/losswindow/losswindow_test.go:262-263 | In no run is a record published twice or delivered twice |
| `AtMostOnce.VoidLoses` | scenarios/losswindow/losswindow_test.go:262-263 | What is published while the consumer is down is lost, whatever follows |
| `AtMostOnce.StopLoses` | scenarios/losswindow/losswindow_test.go:262-263 | So is what is on its way when the consumer stops, and what is unpublished when the producer stops |
| `LossAccounting.CheckpointStableExactly` | scenarios/losswindow/losswindow_test.go:276-306 | A checkpoint's size and head survive every emission-free continuation, restarts included, exactly when the mirror had caught up when it was taken |
| `LossAccounting.LateShipment` | scenarios/losswindow/losswindow_test.go:284-290 | If it had not, a producer restart grows it to the log's length |
| `LossAccounting.RestartContinuesExactly` | scenarios/losswindow/losswindow_test.go:338-345 | The first emission after a restart carries the next number exactly when the counter is seeded from the tail or the log is empty |
| `LossAccounting.ForkedRun` | scenarios/losswindow/losswindow_test.go:338-345 | A run from the start, with a counter that restarts at 1, in which the second emission carries 1 and not 2 |
| `LossAccounting.SequencesContinuous` | scenarios/losswindow/losswindow_test.go:338-345 | Seeded from the tail, Sequences is 1, 2, 3, … after any run |
| `LossAccounting.CompleteExactly` | scenarios/losswindow/losswindow_test.go:222-229 | Snapshot plus current output show everything ever printed exactly when the stream accumulates, or everything printed before the restart is in one of the two |
| `LossAccounting.LatchHolds` | scenarios/losswindow/losswindow_test.go:264-265 | After a first life, a snapshot, and events that deliver nothing (the consumer may still log) up to the stop, the snapshot shows every credential and every reading the consumer showed |
| `LossAccounting.CarefulComplete` | scenarios/losswindow/losswindow_test.go:262-274 | In any run whose consumer comes back at most once, with nothing delivered between a snapshot and the stop before that and no snapshot after it, the view is complete, whatever else the consumer logs |
| `LossAccounting.RuntimeIndependent` | scenarios/losswindow/losswindow_test.go:222-236 | The same such events, with any log lines of the consumer among them, give the same view under both runtimes, and it is everything received |
| `LossAccounting.LossExact` | scenarios/losswindow/losswindow_test.go:314-353 | In every reachable state with a complete view, Lost is exactly the unreceived records' numbers in log order, if and only if no hash is shared between a received and an unreceived record; Unlogged is empty; delivered and lost records make up the log |
| `LossAccounting.AccountForLoss` | scenarios/losswindow/losswindow_test.go:330-337 | Reconciling the served payloads with the shown lines computes that reconciliation and never fails |
| `ScenarioRun.ScenarioNamesLoss` | scenarios/losswindow/losswindow_test.go:254-353 | The scenario's own run, for any five hashes and either runtime: #1 delivered, #2 and #3 emitted while the consumer is down, #4 after it is back, #5 after the producer restart. Readings 1, 4 and 5 are delivered, the loss is exactly "2", "3", nothing is unlogged, the restart leaves the mirror as it was, and the sequences are "1" to "5" with the counter seeded from the tail and end in "1" with one that is not |
| `LossAccounting.WindowNamedExactly` | scenarios/losswindow/losswindow_test.go:262-274 | After an outage and a full recovery Lost is exactly the window's numbers if and only if nothing logged in the outage was delivered after it |
| `LossAccounting.WindowNamed` | scenarios/losswindow/losswindow_test.go:350-353 | It is, if everything logged in the outage had been published when it ended |
| `LossAccounting.LateDelivery` | scenarios/losswindow/losswindow_test.go:266-273 | A record logged but not published when the consumer comes back can still be delivered, with log and mirror unchanged |
| `LossAccounting.QuiescenceNeeded` | scenarios/losswindow/losswindow_test.go:266-273 | Every settled continuation of an outage names its window if and only if nothing was left unpublished at its end; the outage is given by its events from the start, with nothing delivered between snapshot and stop |
| `LossAccounting.UnquietOutage` | scenarios/losswindow/losswindow_test.go:258-268 | A run in which something is: one reading delivered, the consumer stopped, a second logged but not published |
| `Register.OpenComposeDeferrals` | internal/harness/parity_test.go:31-78 | The loops over blocks, lines and tokens, with the heading break, the last status winning, the field tokenizer and the last block winning, compute `Deferrals` |
| `Register.ScanBlock` | internal/harness/parity_test.go:45-63 | A block's status and its deferral fields, read up to the next heading of any level |
| `Register.SplitGroups` | internal/harness/parity_test.go:33-39 | Cutting the text at heading breaks gives, one text each, the lines from one heading line to the next |
| `Register.EveryTextByLine` | internal/harness/parity_test.go:33-39 | So for every text the licences are those read line by line: a mid-line marker starts no finding, a heading on the first line does |
| `Register.NamedLicences` | internal/harness/parity_test.go:40-74 | Whatever the text, no scenario with an empty name is licensed and every licence is under an `E2E-F-` id |
| `Register.GroupLicenses` | internal/harness/parity_test.go:66-74 | A finding licenses, under its id, exactly the scenarios that any of its deferral fields names, if it is open and its id is of the family, and nothing otherwise |
| `Register.DeferralsCompose` | internal/harness/parity_test.go:39-76 | The licences of two registers put together are those of both, the later winning |
| `Register.ProseIgnored` | internal/harness/parity_test.go:47-63 | A line that is neither a heading nor one of the two fields changes nothing, wherever it is inserted, if the heading it stands under has a space or cannot be an id; the other headings do not matter |
| `Register.FindingEnds` | internal/harness/parity_test.go:48-51 | Nothing below the next line whose trimmed text starts with # is read: a finding followed by such a heading and any lines licenses what it licenses alone, if its own heading has a space or cannot be an id, or it licenses nothing |
| `Register.SectionIgnored` | internal/harness/parity_test.go:48-51 | The same inside a register, whatever text comes before the finding and after it |
| `Register.SurvivesProseExactly` | internal/harness/parity_test.go:40-44 | A finding's licences survive every insertion of prose below its heading if and only if the heading has a space, or cannot be an id, or the finding licenses nothing |
| `RegisterPrinting.BareHeadingBreaks` | internal/harness/parity_test.go:40-41 | A finding that does not: open, one deferral, and a heading that is its id alone |
| `RegisterPrinting.LicencesMean` | internal/harness/parity_test.go:15-30 | A scenario is licensed by the id of the last finding that is open, has an `E2E-F-` id and names it, and by nothing else |
| `RegisterPrinting.PathsRead` | internal/harness/parity_test.go:67-74 | The field tokenizer recovers a printed list of scenario paths |
| `RegisterPrinting.TokensRead` | internal/harness/parity_test.go:67-74 | In any text the tokenizer finds the runs between backquotes, commas, blanks, full stops and semicolons, in order, and nothing else |
| `RegisterPrinting.RegisterReadsBack` | internal/harness/parity_test.go:31-78 | Parsing a printed register, with any preamble, any one-line status text (open when it trims to "open"), any id without spaces and any prose in its findings, gives exactly the licences of its open `E2E-F-` findings |
| `ComposeParity.CheckParity` | internal/harness/parity_test.go:201-234 | The guard's complaints, scenario by scenario, and its failure without scenarios |
| `ComposeParity.ComplaintsExactly` | internal/harness/parity_test.go:212-233 | A missing twin is reported for exactly the scenario directories without twin or licence, and a stale deferral, with the licence's id, for exactly those with both |
| `ComposeParity.NoComplaints` | internal/harness/parity_test.go:224-229 | There is no complaint exactly when each scenario has a twin or a licence and not both |
| `ComposeParity.ParityExactly` | internal/harness/parity_test.go:192-200 | That is when the twinless scenarios are exactly the licensed ones |
| `ComposeParity.ParityOfRegister` | internal/harness/parity_test.go:192-234 | Over a printed register, whatever its statuses and ids, no scenario is reported exactly when those without a twin are the ones an open `E2E-F-` finding names |
| `Hocon.QuotedReadsBack` | internal/harness/config.go:85-112 | A string printed with %q reads back as itself in JSON quoting exactly when the two escape it alike, and is a syntax error otherwise |
| `Hocon.HexEscape` | internal/harness/config.go:85-112 | A control character without a letter of its own is printed by %q as its number in two hexadecimal digits |
| `Hocon.FragmentInside` | internal/harness/config.go:128-143 | A well-formed verbatim fragment sets inside open blocks what it sets alone, one level deeper, and leaves them open |
| `HoconLines.LineReadsBack` | internal/harness/config.go:85-144 | Every printed line shape reads back as what it sets and which blocks it opens or closes |
| `HoconLines.WrittenReadsBack` | internal/harness/config.go:83-146 | So do lines one after another |
| `HoconLines.Builder.Append` | internal/harness/config.go:84-145 | The builder's text is the lines appended so far |
| `NodeConfig.Render` | internal/harness/config.go:83-146 | The text built piece by piece, registries sorted whatever order the map is iterated in, is the written lines of the configuration |
| `NodeConfig.RenderReadsBack` | internal/harness/config.go:83-146 | The loader reads from the text every field at its path in order, ChainExtra in the chain block after nats closes, loops and Extra in the pipeline block, and nothing else |
| `RenderLimits.RenderLoadsExactly` | internal/harness/config.go:83-146 | It does so exactly when every quoted string is one Go and JSON escape alike; otherwise the text does not load at all |
| `RenderLimits.BellUnreadable` | internal/harness/config.go:107 | A configuration that does not load: its seed file's name has a bell character |
| `NodeConfig.CoreReadsBack` | internal/harness/config.go:86-98 | The value found at each of the five core paths is the configuration's, with nothing set later at, above or below it, whatever the fragments set |
| `NodeConfig.AuthReadsBack` | internal/harness/config.go:60-81 | The verifier URL is found; for an http URL whose host is not empty, no casing of localhost and not loopback, the plain-internal exception is found as host and port, 80 for an empty port and brackets around a host with a colon; in every other case nothing is set there |
| `NodeConfig.RegistryReadsBack` | internal/harness/config.go:48-58 | The registry id is found and, if credentials are stored, the advertised resolver's type and endpoint; a node that stores none advertises nothing |
| `NodeConfig.NatsReadsBack` | internal/harness/config.go:105-126 | The connection settings and each registry's URL under its id as one key, dots and all, unless the chain fragment sets under nats itself |
| `NodeConfig.TransportReadsBack` | internal/harness/config.go:103-104 | The transport is found, unless the chain fragment sets it itself |
| `NodeConfig.StoreReadsBack` | internal/harness/config.go:131-136 | The bearer token is always found, the store's endpoint when there is one and nothing there otherwise, unless the verbatim fragment sets them itself |
| `NodeConfig.NothingEmptyPrinted` | internal/harness/config.go:113-143 | The registry, advertisement and loops blocks are printed exactly when there is something in them, and no empty fragment is printed |
| `SeparatedConfig.SplitNodeConfig` | internal/harness/separated.go:91-147 | The two texts are the renderings of the network's and the pipeline's configuration, the endpoint of both being the first non-empty of the three candidates |
| `SeparatedConfig.SplitAgreement` | internal/harness/separated.go:69-90 | The two texts load to the same settings in the same order except for the listen address, the tunables in the network's pipeline block and the loops in the pipeline's |
| `SeparatedConfig.ChainExtraReachesBoth` | internal/harness/separated.go:58-63 | Every setting of the chain fragment is among the shared ones |
| `SeparatedConfig.NetworkHasNoLoops` | internal/harness/separated.go:73-76 | The network's text sets nothing at, above or under pipeline.loops, unless the verbatim tunables have a key there |
| `SeparatedConfig.EndpointReadsBack` | internal/harness/separated.go:92-117 | Both texts read back the same non-empty vc-store-endpoint, unless the verbatim tunables set that key or anything below it |
| `SeparatedConfig.EndpointChosen` | internal/harness/separated.go:92-117 | That endpoint is the resolver base URL if there is one, else the registry table's non-empty entry for the node's own registry, else the loopback address with the network's port |
| `SeparatedConfig.HalvesReadBack` | internal/harness/separated.go:119-147 | Every field of the one configuration is found at its own path in both texts, the plain-internal exception included, and each half's own listen address in it, unless the chain fragment sets under nats |
| `Grants.PlayCoherent` | internal/harness/nats.go:123-183 | In every interleaving of connects and grants each account's effective claims are the directory's, which are bare claims plus all grants so far |
| `Grants.DeliveryExactly` | internal/harness/nats.go:123-142 | A subject crosses from one account to another exactly when it was granted between the two; it is not transitive |
| `Grants.StaleExactly` | internal/harness/nats.go:123-128 | Without the push to loaded accounts an account that has connected keeps its first claims, and is right exactly when no later grant adds anything to them |
| `Grants.LoadedExactly` | internal/harness/nats.go:144-161 | An account is loaded exactly when it has connected, or was concerned by a grant whose refresh loads what it looks up |
| `Brokers.ProvisionAccounts` | internal/harness/nats.go:75-101 | Every name gets an account with bare published claims, under the key minted at its last place; no two names share an account |
| `Brokers.NATS.constructor` | internal/harness/nats.go:49-111 | A started broker is coherent, with nothing granted and nothing loaded |
| `Brokers.NATS.Bridge` | internal/harness/nats.go:163-183 | Afterwards the resolver holds every published JWT and what else it held |
| `Brokers.NATS.Connect` | internal/harness/nats.go:123-128 | A client's connect loads the account from the resolver once and keeps coherence |
| `Brokers.NATS.RefreshLoaded` | internal/harness/nats.go:144-161 | A loaded account's cached claims become the published ones; one not loaded is left to its first connect |
| `Brokers.NATS.Publish` | internal/harness/nats.go:133-141 | Export and import are entered in the directory, bridged to the resolver and pushed into the loaded accounts on both sides |
| `Brokers.NATS.Grant` | internal/harness/nats.go:129-142 | A grant between known names adds exactly itself to the grants made and keeps all three copies coherent; an unknown name changes nothing |
| `Brokers.NATS.HeardExactly` | internal/harness/nats.go:123-142 | At any point between calls a subject is heard from one name to another exactly if it was granted between these names |
| `Brokers.ComposeProvision.constructor` | internal/harness/compose.go:51-108 | Compose accounts start with bare claims and the configuration unwritten |
| `Brokers.ComposeProvision.Grant` | internal/harness/compose.go:120-134 | A grant after the configuration was written, or for an unknown name, fails and changes nothing; otherwise it adds exactly itself |
| `Brokers.ComposeProvision.WriteBrokerConfig` | internal/harness/compose.go:136-159 | The preloaded claims are all the grants made, and stay so as no later grant succeeds |
| `Brokers.PreloadOf` | internal/harness/compose.go:145-151 | The preload is each account's published claims, whatever order the map is iterated in |
| `Brokers.RunLive` | internal/harness/nats.go:49-142 | Any list of connects and grants by name, driven through the live broker, stops exactly at an unknown name and otherwise leaves the state the functional account of it gives |
| `Brokers.RunStatic` | internal/harness/compose.go:120-159 | Any list of grants by name followed by the rendering does the same on the compose path |
| `Brokers.StaticAgreesWithLive` | internal/harness/compose.go:120-159 | For every list of grants, every interleaving of connects with it on the live broker, and whatever account keys each runtime mints, a subject is heard from one name to another in the live broker, and in the compose one, exactly if it is in the list |
| `KeyProvisioning.KeyStore.SaveKeyPair` | scenarios/losswindow/losswindow_test.go:430-440 | Saving fails and changes nothing when the directory exists, and otherwise creates it and all it runs through |
| `KeyProvisioning.Provision` | internal/harness/env.go:143-152 | The two loops and the node DID check succeed exactly when no DID comes after an equal one or an extension of it and the node DID is listed; they stop at the first DID in the way, and the directories are those of the DIDs saved before |
| `KeyProvisioning.KeysForEach` | internal/harness/bootstrap.go:113-116 | After a success every listed DID, and no other, has keys, and they are the ones minted for it |
| `KeyProvisioning.ProcessBeforePipelineFails` | scenarios/losswindow/losswindow_test.go:430-440 | Any order that has a process before its own pipeline fails |
| `KeyProvisioning.TwoLoopsFit` | scenarios/losswindow/losswindow_test.go:446-452 | Pipelines that do not nest followed by deeper processes that do not nest always succeed |
| `Relay.ChainDIDs` | scenarios/longchain/longchain_test.go:99-107 | The source and hops 1 to N, pipelines and processes |
| `Relay.ChainProvisions` | scenarios/longchain/longchain_test.go:94-107 | Provisioning them succeeds at every depth, with the source process as the node |
| `Relay.ProcessesFirstFails` | scenarios/losswindow/losswindow_test.go:430-440 | With the two loops exchanged it fails at every depth |
| `Relay.ProcessInjective` | scenarios/longchain/longchain_test.go:91-92 | Zero-padded hop numbers never make two process DIDs collide |
| `Relay.HopNumbered` | scenarios/longchain/longchain_test.go:91-92 | A hop's pipeline and process DIDs carry the same number, in two or more digits with no needless zero |
| `LoopsBlock.RenderLoops` | scenarios/longchain/longchain_test.go:111-167 | The text built by the loop, each hop consuming the previous subject, is that of the topology |
| `LoopsBlock.HopExactly` | scenarios/longchain/longchain_test.go:127-154 | Each hop carries its own number in name, subject, ids, signing process and stamp, and consumes what the loop before it produces |
| `LoopsBlock.EndsExactly` | scenarios/longchain/longchain_test.go:111-126 | The source takes the ingress subject under the source's identity, and the sink takes what the last hop produces |
| `LoopsBlock.SourceConfigures` | scenarios/longchain/longchain_test.go:113-126 | The nine settings of the source's block, each at its path |
| `LoopsBlock.HopConfigures` | scenarios/longchain/longchain_test.go:130-152 | The twelve settings of a hop's block, its own ones under chained |
| `LoopsBlock.SinkConfigures` | scenarios/longchain/longchain_test.go:156-165 | The five settings of the sink's block |
| `LoopsBlock.BlockReadsBack` | scenarios/longchain/longchain_test.go:109-167 | At every depth the block is a well-formed fragment and loads to its loops' settings |
| `LoopsBlock.LoopReadsBack` | scenarios/longchain/longchain_test.go:109-167 | Under each loop's name it sets exactly that loop's settings; no loop overrides another |
| `LoopsBlock.PipelineCarriesLoops` | scenarios/longchain/longchain_test.go:173-190 | In the pipeline's configuration the whole block stands under pipeline.loops |
| `LoopsRead.LoopReads` | scenarios/longchain/longchain_test.go:116-165 | From the settings of any one loop its name, subjects, issuer, ids, endpoint and stamp are read back |
| `LoopsRead.StampOnly` | scenarios/longchain/longchain_test.go:150 | Only a converter of the printed form, with a decimal number in it, reads back as a stamp |
| `LoopsRead.TextConfiguresRelay` | scenarios/longchain/longchain_test.go:109-167 | At every depth the loops read back from the rendered text are the topology, in order, and no others |
| `RelayWalk.RelayWired` | scenarios/longchain/longchain_test.go:109-110 | At every depth the topology is a line: source, hops stamping their number in order, sink |
| `RelayWalk.RelaySubjects` | scenarios/longchain/longchain_test.go:109-110 | Each subject of it is consumed by exactly one loop and produced by the one before it, the ingress by none |
| `RelayRun.RunKeepsInv` | scenarios/longchain/longchain_test.go:200-240 | For any publishes delivered in any order, every message carries the whole chain of the loops behind it, and every reading is accounted for |
| `RelayRun.RecordsComplete` | scenarios/longchain/longchain_test.go:219-237 | At any moment each sink record is verified, stamped N and backed by the N+1 credentials of the whole relay |
| `RelayRun.VerifiedExactly` | scenarios/longchain/longchain_test.go:225-228 | Over any run of any loops, signed by keys good or bad, a sink record is marked verified exactly when its credential is stored and its signature verifies |
| `RelayRun.ReadingsConserved` | scenarios/longchain/longchain_test.go:336-395 | Published readings are the ones in flight and the ones recorded, none lost or repeated |
| `RelayRun.QuietExactly` | scenarios/longchain/longchain_test.go:193-198 | However deliveries are scheduled the relay falls quiet after exactly N+2 deliveries a publish |
| `RelayRun.OnePublishOneRecord` | scenarios/longchain/longchain_test.go:209-240 | One publish yields exactly one record, of that reading, stamped N |
| `RelayWalk.WalkBack` | scenarios/longchain/longchain_test.go:249-279 | On any store, cyclic ones included, the walk resolves at most N+2 credentials and accepts exactly a verified chain of N+1 credentials that ends without predecessor, from the last hop to the source; each error says how far it came |
| `RelayWalk.PassesExactly` | scenarios/longchain/longchain_test.go:249-279 | What the walk accepts, credential by credential: N+1 of them, each stored under its hash, verified, issued by the named identity and naming the next, the last naming none |
| `RelayWalk.CycleNeverEnds` | scenarios/longchain/longchain_test.go:251-254 | A credential that is its own ancestor starts no complete chain of any length |
| `RelayWalk.EveryRecordWalks` | scenarios/longchain/longchain_test.go:241-279 | At every depth, in every run, each sink record passes the walk, which yields the hops in reverse and then the source |
| `RelayWalk.ConfiguredRelayWalks` | scenarios/longchain/longchain_test.go:200-279 | So does each record when the loops that run are those the rendered text configures |
| `RelayWalk.VerifiedSinkCount` | scenarios/longchain/longchain_test.go:297-321 | The count of credentialed records, failing on the first that is unverified or stamped by another hop |
| `RelayWalk.CountIsPublishes` | scenarios/longchain/longchain_test.go:292-321 | On the relay it never fails, and with what is in flight it adds up to the publishes |

## Left out

- Subprocesses, docker, ports, HTTP health, broker monitoring, timeouts and sleeps: a wait is a step enabled once its condition holds, and the start and stop orders of a node's two processes appear only as the producer and consumer going down and up.
- Signatures, JCS canonicalization, DID documents, delegation and checkpoint verification belong to other packages; hashes, heads and signature checks are parameters.
- JSON text: documents are taken after parsing. Case-insensitive field matching, duplicate keys and integers written as fractions are not modelled.
- Strings are sequences of characters, not bytes: a `%q` of invalid UTF-8 or of an unprintable character from U+0080 on is not modelled, and `sort.Strings` compares characters.
- The HOCON reader knows the constructs the harness prints: blocks, bare and quoted keys, strings, words, one-element string lists and comments, and the JSON escapes without `\u`. Fragments that use more of HOCON (substitutions, concatenation, includes) count as not well formed.
- URL and address parsing inside `plainInternalLine` is a parameter (scheme, host, port, loopback), and `EqualFold` folds ASCII letters only.
- Column alignment: settings are printed with the blanks of the templates, but since the loader skips blanks nothing is proved about their number.
- The six comment lines of the core block are a parameter, proved to set nothing as long as each is one line.
- `SinkDelivery.ReadingSet`, `EmissionLog.ReconcileEmissionLog` and `NodeConfig.Render` call the library's sort as a function on a sequence instead of sorting a slice in place.
- `LossAccounting.LossExact` and `LossAccounting.WindowNamedExactly` take the view to be complete, which `LossAccounting.CarefulComplete` establishes for the scenario's discipline (nothing delivered between the snapshot and the stop, one restart) and `LossAccounting.CompleteExactly` characterizes.
- `Brokers.NATS.Grant`: subject wildcards, permissions, JWT expiry and revocation are not modelled, and an account's claims are pushed at once. Keys minted for accounts are taken to be distinct.
- `KeyProvisioning.Provision`: file modes, write errors and path separators inside a DID segment are not modelled.
- `RelayRun.RunKeepsInv`: a hop's own verification of its predecessor is not a separate step; in the relay it always succeeds, as `RelayRun.RecordsComplete` shows for the sink.
- `RelayWalk.WalkBack`: a stored credential that does not decode is not told apart from one that is not there, and the two issuer checks stop the walk's result instead of being reported together.
- Log paging, aggregate folding, Merkle commitments, bundle export and the audit runner are implemented elsewhere; the scenarios only call them.
- The other scenarios, file permissions, binaries and rate measurement add no further computed property.
