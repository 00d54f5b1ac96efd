# MyPods: protocols, state machines and the effect graph, modelled and proved

MyPods is a daemon for Bluetooth headphones (AirPods, Galaxy Buds, Parrot Zik) on Linux and Windows. This project
models the parts of it in which a mistake would be hard to see, and proves what they promise.

| files | what they model |
|---|---|
| `Effects`, `EffectGraph`, `EffectBuild`, `EffectShape`, `EffectNames`, `EffectPatch`, `EffectChain`, `EffectMeaning`, `EffectWeights`, `EffectSound`, `EffectNeeds` | the compiler from effect settings to a PipeWire node graph, and the live updates of a running graph |
| `Crc16Register`, `Crc16Bits`, `Crc16`, `GalaxyBuds` | Galaxy Buds packets: checksum, splitting of the byte stream, encoding and decoding |
| `Zik` | Parrot Zik frames reassembled from an RFCOMM stream |
| `Event`, `EventFires` | thread-safe event with snapshot firing and per-listener recursive locks |
| `ClientSessions` | blocking queue and the reading and writing threads of a Bluetooth client |
| `DeviceWorker`, `BleScan` | the worker that opens and closes a control channel; the pause of the BLE scan |
| `AudioSwitch`, `AudioSwitchRuns`, `AudioSwitchCapability` | who plays to a pair of AirPods: claim, re-claim, release, the silent output |
| `SmartRouting` | the OPACK bodies of smart-routing messages and the UTF-8-safe cut of a name |
| `RequestQueues`, `Transparency` | one request at a time (ATT, Zik); the transparency characteristic |
| `JsonToml` | settings from JSON to TOML and back |

`dafny verify dfyconfig.toml` checks everything.

## How the model is built

- Code that updates fields is a class whose methods are proved against functions of the old state; runs are sequences
  of those functions' steps. Where several threads meet, a thread is a program counter, a lock is an owner, and a run
  is any interleaving of the steps.
- The effect graph is data: nodes with settings, links, inputs and outputs, in the order of the generated text.
  `NodeOf` says what each node is and `Driver` what feeds each input; `BuildConfig` is the loop that collects both, and
  is proved to give exactly that graph. Numbers are reals; `Num` is their two-decimal text, ties to even. The measured
  or sampled quantities (the peak behind the headroom, the loudness gain, the crossfeed gain) and the power, root, sine
  and cosine are functions in a parameter `Numerics`; `Sane` lists the few facts about them that are used.
- A signal is a real for every port and sample. A biquad is its difference equation from silence, with the cookbook
  coefficients of the source; a mixer is a weighted sum; a spatializer and the limiter may do anything. `Runs` holds of
  any signals that satisfy all nodes and links, so what is proved holds of whatever the graph plays. Such signals exist
  and are unique for every input (`GraphPlays`, `OnlyOneSound`).
- Audio switching: packets come parsed, every handler is one step, the takeover thread is one step per stretch between
  two waits, and what a worker's look finds outside (worn, connected, where the output plays) is an input of that look.
- OPACK back-references count the strings and the 8- and 16-bit numbers before them, keys included; that is the model's
  reading of the subset the source documents.

## Where the code departs from its comments or from what one would expect

- `core/src/device/ZikDevice.h:41` says every set is followed by a get. It is not when an equal get already waits ahead
  of the set: `SetIsFollowedByGetIff` has the exact condition, `SetWithoutGet` an example.
- `Apply` with settings the chain runs already records yaw 0 and sends nothing: `UnchangedStaysInStepIff` and
  `AnglesLeftBehind`.
- 0 dB does not neutralise a low-pass or high-pass of a correction file: `BypassIsPreGainIff`, `BypassIsStraightIff`; nor
  does switching the correction off: `NothingIsMissedIff`.
- The Galaxy Buds type bit is read and written with opposite senses (`core/src/sdk/sgb/GalaxyBudsPacket.cpp:82` and
  `:158-161`): the type of what is written reads back on the legacy Buds and on no others, `TypeReadsBackIff`, with an
  example in `RequestReadAsResponse`. Id and payload always read back.
- `Encode` frames with the bytes of the last packet read, 0 before the first: `SentSplitsIff`.
- A bad length makes the Zik framer drop all it holds, so a cut of the stream can matter: `CutDoesNotMatterIff`,
  `CutMattersOutOfSync`.
- ATT answers are paired with requests by order alone. That is right if and only if no answer comes for a request that
  a push gave up after two seconds: `AnswersPairUp`, with an example in `LateAnswerIsMistaken`.
- TOML dates and times are lost on the way through JSON, and JSON numbers past the signed 64-bit range change:
  `TomlSurvivesIff`, `JsonSurvivesIff`.

## Model

| member | source | states |
|---|---|---|
| EffectPatch.PatchIsRebuild | core/src/audio/AudioEffects.cpp:622-642 | for any two configs with the same graph key, the command line for the second turns the graph built for the first, at any yaw, into the graph a restart would build: every node, setting, link and port |
| EffectPatch.TurnIsRebuild | core/src/audio/AudioEffects.cpp:436-444 | the angle commands alone turn a running graph to the new yaw and change nothing else |
| EffectPatch.CommandsFit | core/src/audio/AudioEffects.cpp:622-642 | every command addresses a setting that exists on a node that exists, with the value a rebuild gives it |
| EffectPatch.CommandsCover | core/src/audio/AudioEffects.cpp:824-825 | whatever two configs with equal keys set differently is in the command line |
| EffectPatch.PatchedToTarget | core/src/audio/AudioEffects.cpp:622-642 | commands applied one after the other, which tell only the target's values and all that differ, make the node the target |
| EffectPatch.ControlCommand | core/src/audio/AudioEffects.cpp:622-642 | the loops produce exactly the specified commands, in order |
| EffectPatch.AzimuthParams | core/src/audio/AudioEffects.cpp:436-444 | one angle per seated speaker, none for the LFE, none without spatial audio |
| EffectBuild.BuildConfig | core/src/audio/AudioEffects.cpp:446-620 | the collected nodes, links, inputs, outputs and positions are those of the node-by-node and input-by-input description, in the order of the text |
| EffectBuild.AddMixer | core/src/audio/AudioEffects.cpp:470-478 | a mixer node with a gain per input and a link into each, inputs numbered from 1 |
| EffectBuild.PreGains | core/src/audio/AudioEffects.cpp:484-492 | a pre-gain, an input and a position per speaker, in their order |
| EffectBuild.CrossfeedPart | core/src/audio/AudioEffects.cpp:495-510 | the crossfeed nodes are there on or off, muted when off or bypassed |
| EffectBuild.SpeakerPart | core/src/audio/AudioEffects.cpp:513-533 | the chain of one speaker: crossover and compensation with the KEMAR only, then the spatializer |
| EffectBuild.BassPart | core/src/audio/AudioEffects.cpp:535-546 | the bass path: which channels enter the mean, and the two low-passes behind it |
| EffectBuild.EarPart | core/src/audio/AudioEffects.cpp:547-572 | an ear's mixers with the right feeds and gains, the third input of the last one always the direct path |
| EffectBuild.MixedAreKept | core/src/audio/AudioEffects.cpp:184-193 | the 7.1 channels with a downmix into an ear are exactly those on its side and the center |
| EffectBuild.BandsPart | core/src/audio/AudioEffects.cpp:576-584 | the filters of an ear in signal order, each fed by the one before |
| EffectWeights.EffectsHead | core/src/audio/AudioEffects.cpp:176-181 | with spatial audio and no bypass an ear's filters start from the virtual speakers, plus the bass path exactly with the KEMAR or 7.1; the unprocessed input is not heard |
| EffectWeights.SpeakersAreSummed | core/src/audio/AudioEffects.cpp:547-560 | an ear hears 0.7 times the sum of what the seated speakers' spatializers put out for it: two, with 7.1 seven |
| EffectWeights.SpeakersAreFed | core/src/audio/AudioEffects.cpp:513-533 | a speaker plays its own channel, with the KEMAR through ten filters one after the other |
| EffectWeights.SpeakersStand | core/src/audio/AudioEffects.cpp:33-42 | the speakers' angles, turned by the yaw, and the HRTF file in use |
| EffectWeights.BassIsTheMean | core/src/audio/AudioEffects.cpp:535-546 | the bass path sums half of every channel and the whole LFE with the KEMAR, else the LFE alone |
| EffectWeights.CrossoverMatches | core/src/audio/AudioEffects.cpp:535-546 | the two low-passes of the bass have the corner and quality of the two high-passes of every speaker, and follow each other |
| EffectWeights.CrossfeedHead | core/src/audio/AudioEffects.cpp:495-510 | without spatial audio an ear's filters start from its channel plus the crossfeed's gain, when on, times the other low-pass minus the own one |
| EffectWeights.LowPassesAreFed | core/src/audio/AudioEffects.cpp:499-503 | the crossfeed's low-passes get their own channel |
| EffectWeights.DownmixIs | core/src/audio/AudioEffects.cpp:184-193 | in the A/B comparison an ear gets its front whole and center, side and rear at 0.71 |
| EffectWeights.FiltersAreSet | core/src/audio/AudioEffects.cpp:132-156 | every filter node of an ear, written out: frequency, quality and the gain asked for, 0 dB in the bypass or when off |
| EffectWeights.PreGainIsSet | core/src/audio/AudioEffects.cpp:229-265 | every pre-gain takes off the peak of the filters that are on and the spatial allowance: 0, or 3 with a limiter, 10.4 fixed, 12.2 tracked, and 3 more for 7.1 |
| EffectWeights.EndsAre | core/src/audio/AudioEffects.cpp:575-591 | the inputs and positions channel by channel, the outputs left before right, through the limiter if there is one, fed by each ear's last filter |
| EffectShape.GraphIsWellFormed | core/src/audio/AudioEffects.cpp:446-591 | for every config and correction of any length: no node twice, every input of every node driven exactly once and by an output that exists, no link to anything else, links only upwards in rank, at most 8 inputs a mixer |
| EffectShape.NamesAre | core/src/audio/AudioEffects.cpp:446-591 | exactly these nodes exist for a graph key |
| EffectShape.NoCycle | core/src/audio/AudioEffects.cpp:446-591 | no node feeds itself, directly or through others |
| EffectShape.EveryNodeIsReached | core/src/audio/AudioEffects.cpp:446-591 | from the graph's inputs a path of links leads to every node |
| EffectShape.EarsAreReached | core/src/audio/AudioEffects.cpp:575-591 | and to both ears' outputs |
| EffectNames.NamesTellNodes | core/src/audio/AudioEffects.cpp:159-162 | two nodes whose names in the text are equal are the same node |
| EffectNames.TextsAreDistinct | core/src/audio/AudioEffects.cpp:446-591 | for every config, the names of the generated text are all different |
| EffectMeaning.BypassIsPreGain | core/src/audio/AudioEffects.cpp:176-193 | with a correction of peaking and shelf filters only, the bypassed graph before the limiter gives each ear the pre-gain times the input (for 7.1 its downmix), sample for sample, with the pre-gain of the unbypassed config |
| EffectMeaning.BypassIsPreGainIff | core/src/audio/AudioEffects.cpp:142-154 | the bypass does so for a sound that starts at the first sample if and only if the correction holds no low-pass and no high-pass |
| EffectMeaning.ChainPasses | core/src/audio/AudioEffects.cpp:132-156 | an ear's filters, all at 0 dB and none a pass, are transparent |
| EffectMeaning.NoGainSides | core/src/audio/AudioEffects.cpp:196-222 | at 0 dB peaking and shelf filters have equal numerator and denominator; a pass lets less than the first sample through |
| EffectMeaning.ShelfAtZero | core/src/audio/AudioEffects.cpp:486-492 | a 0 Hz high shelf has the coefficients of a plain gain |
| EffectMeaning.ShelfAtZeroGains | core/src/audio/AudioEffects.cpp:486-492 | and its output is that gain times the input, at every sample |
| EffectMeaning.BypassHead | core/src/audio/AudioEffects.cpp:547-572 | in the bypass the ear's filter chain starts from the unprocessed input at the pre-gain |
| EffectMeaning.CrossfeedLeavesMono | core/src/audio/AudioEffects.cpp:71-76 | a mono input leaves the crossfeed mixers unchanged, on or off |
| EffectSound.GraphPlays | core/src/audio/AudioEffects.cpp:446-591 | for every config with a correction in the range the parser admits, every input and whatever spatializers and limiter put out, the graph has a sound |
| EffectSound.OnlyOneSound | core/src/audio/AudioEffects.cpp:446-591 | and only one: all its sounds agree at every port and sample |
| EffectSound.CookbookLeads | core/src/audio/AudioEffects.cpp:196-222 | the leading denominator of every filter type is positive at any gain, so its output is determined |
| EffectSound.BypassIsStraightIff | core/src/audio/AudioEffects.cpp:142-154 | in the bypass every input comes out as its unprocessed self at the pre-gain if and only if the correction holds no low-pass and no high-pass |
| Effects.BypassKeepsHeadroom | core/src/audio/AudioEffects.cpp:229-233 | bypassed or not, the headroom is the same |
| Effects.CollectFilters | core/src/audio/AudioEffects.cpp:132-156 | the loops collect the filters of an ear in signal order with the gains in effect |
| Effects.AzimuthIsTheAngle | core/src/audio/AudioEffects.cpp:423-426 | the angle is in 0 to 360 degrees and differs from base plus yaw by whole turns, negative sums included |
| Effects.NumIsNear | core/src/audio/AudioEffects.cpp:428-433 | a number in the text is within half a hundredth of the number |
| Effects.NumIsOdd | core/src/audio/AudioEffects.cpp:428-433 | opposite numbers have opposite texts, so the crossfeed's two gains cancel |
| EffectGraph.Clean | core/src/audio/AudioEffects.cpp:449-456 | nothing is left that would end a quoted string, and a text without such characters is unchanged |
| EffectGraph.CleanPiecewise | core/src/audio/AudioEffects.cpp:449-456 | all other characters stay, in their order |
| EffectChain.AudioEffects.constructor | core/src/audio/AudioEffects.h:148-156 | the starting state |
| EffectChain.AudioEffects.Apply | core/src/audio/AudioEffects.cpp:800-862 | updates the running chain, restarts it or removes it, and the sink to play to |
| EffectNeeds.ApplyStartsIff | core/src/audio/AudioEffects.cpp:837-859 | with nothing running and starts that succeed, `Apply` plays to the chain if and only if the settings that can be had ask for spatial audio, crossfeed, loudness, a switched-on correction or a filter gain other than 0; then the chain runs exactly their graph |
| EffectNeeds.NeutralIff | core/src/audio/AudioEffects.cpp:112-116 | neutral settings are exactly those that ask for none of these |
| EffectNeeds.NothingIsMissedIff | core/src/audio/AudioEffects.cpp:112-116 | for such settings every input would come out of the graph as it is, at the pre-gain, if and only if the switched-off correction holds no low-pass and no high-pass |
| EffectNeeds.ApplyTakesEffect | core/src/audio/AudioEffects.cpp:820-859 | in every run whose writes arrive: what can be had of the settings is what plays afterwards, in front of the sink asked for; the chain goes on, links untouched, exactly if spatial on or off, 7.1, correction filters, HRTF file, limiter and sink are the same |
| EffectNeeds.YawFollows | core/src/audio/AudioEffects.cpp:977-989 | with head tracking the yaw follows the head to less than 1.5 degrees or the last turn is less than 50 ms old; without it, or by less, nothing turns |
| EffectNeeds.VolumeFollows | core/src/audio/AudioEffects.cpp:991-1001 | with loudness on, the volume of the headphones played into is followed to less than half a percent; nothing else changes anything |
| EffectNeeds.NothingIsLeft | core/src/audio/AudioEffects.cpp:964-975 | in every run the chain's sink is recorded exactly while there is a chain, and without one no settings, no pipe and no graph are |
| EffectNeeds.StopForIff | core/src/audio/AudioEffects.cpp:896-901 | in every run headphones going away take down the chain if and only if it plays into them, else it goes on as it was |
| EffectNeeds.FailedStart | core/src/audio/AudioEffects.cpp:829-853 | when no chain starts, one goes on exactly if it can be updated and the update is delivered or not needed; else nothing is left of it |
| EffectNeeds.NoSofaIsTheDefault | core/src/audio/AudioEffects.cpp:164-167 | no HRTF file and the default one's path give the same graph |
| EffectChain.EffectiveCanBeHad | core/src/audio/AudioEffects.cpp:803-816 | spatial audio stays exactly if wanted and some HRTF file is there, the wanted file before the default one; no 7.1 without it; the limiter is the installed one; applying the result again changes nothing |
| EffectChain.AudioEffects.Available | core/src/audio/AudioEffects.cpp:803-816 | the branches give the settings so described, in every other field as wanted |
| EffectChain.AudioEffects.Stop | core/src/audio/AudioEffects.cpp:964-975 | nothing runs and nothing is recorded but the yaw |
| EffectChain.AudioEffects.SetYaw | core/src/audio/AudioEffects.cpp:977-989 | turns the speakers, or leaves everything as it was |
| EffectChain.AudioEffects.SetVolume | core/src/audio/AudioEffects.cpp:991-1001 | moves the loudness compensation, or leaves everything as it was |
| EffectChain.AudioEffects.StopFor | core/src/audio/AudioEffects.cpp:896-901 | stops the chain only of the headphones it plays into |
| EffectChain.AudioEffects.HoldSink | core/src/audio/AudioEffects.cpp:864-888 | the silent output is there exactly if asked for and there already or come up |
| EffectChain.RunRelated | core/src/audio/AudioEffects.cpp:800-862 | in every run, lost writes included, the running graph is one with the recorded key and sink, so every later patch fits it |
| EffectChain.RunGains | core/src/audio/AudioEffects.cpp:800-862 | in every run whose writes arrive, the running gains are those of the recorded config |
| EffectChain.RunInStep | core/src/audio/AudioEffects.cpp:977-1001 | and the running angles those of the recorded yaw, unless an `Apply` with unchanged settings was followed by no other command |
| EffectChain.UnchangedStaysInStepIff | core/src/audio/AudioEffects.cpp:828-832 | such an `Apply` leaves the angles in step if and only if the recorded yaw comes to the same angles as straight ahead |
| EffectChain.AnglesLeftBehind | core/src/audio/AudioEffects.cpp:828-832 | for one: the head turned by 90 degrees, then the same settings once more |
| Crc16.Checksum | core/src/sdk/sgb/Crc16.cpp:11-22 | the table loop computes the specified checksum |
| Crc16.PacketChecksum | core/src/sdk/sgb/Crc16.cpp:24-33 | the checksum of id and payload as two bytes, low byte first |
| Crc16Register.TableStepIsByteStep | core/src/sdk/sgb/Crc16.h:17-34 | a look-up in the 256-entry table does eight steps of the x^16+x^12+x^5+1 register |
| Crc16Register.Step8Xor | core/src/sdk/sgb/Crc16.cpp:11-22 | the register is linear |
| Crc16Register.PairIsInjective | core/src/sdk/sgb/Crc16.cpp:11-22 | from one register, different byte pairs lead to different registers |
| Crc16Bits.BitStepBit | core/src/sdk/sgb/Crc16.cpp:11-22 | one message bit shifts the remainder and adds the generator's bits when one falls out |
| Crc16.ChecksumIsTheRemainder | core/src/sdk/sgb/Crc16.cpp:11-22 | a 16-bit value is the checksum if and only if the message with it appended is a multiple of x^16+x^12+x^5+1 |
| Crc16.DivisionIsUnique | core/src/sdk/sgb/Crc16.cpp:11-22 | quotient and remainder are unique |
| Crc16.BurstChangesChecksum | core/src/sdk/sgb/Crc16.cpp:11-22 | a change within two neighbouring bytes changes the checksum, at any length |
| Crc16.ResidueIsZero | core/src/sdk/sgb/Crc16.cpp:11-22 | with two bytes appended the checksum is 0 exactly if they are the message's own, high byte first |
| GalaxyBuds.SplitConserves | core/src/sdk/sgb/GalaxyBudsPacket.cpp:24-51 | packets, dropped bytes and tail are the stream, in order |
| GalaxyBuds.SplitIgnoresReadBoundaries | core/src/sdk/sgb/GalaxyBudsPacket.cpp:24-51 | for all byte strings, splitting the whole is splitting the first part and then its tail with the rest |
| GalaxyBuds.PacketsIgnoreReadBoundaries | core/src/sdk/sgb/GalaxyBudsPacket.cpp:24-51 | so the packets do not depend on the cut |
| GalaxyBuds.LookIsStable | core/src/sdk/sgb/GalaxyBudsPacket.cpp:29-47 | a verdict other than waiting stands whatever arrives behind |
| GalaxyBuds.GalaxyBudsPacket.Split | core/src/sdk/sgb/GalaxyBudsPacket.cpp:24-51 | the loop returns the specified packets and leaves the specified tail |
| GalaxyBuds.GalaxyBudsPacket.Extract | core/src/sdk/sgb/GalaxyBudsPacket.cpp:53-123 | accepts exactly what the size, the framing and the checksum allow, and returns id, payload, and the type by the legacy type byte or bit 12 of the header's value |
| GalaxyBuds.GalaxyBudsPacket.Encode | core/src/sdk/sgb/GalaxyBudsPacket.cpp:125-172 | the bytes of a packet |
| GalaxyBuds.ExtractUndoesEncode | core/src/sdk/sgb/GalaxyBudsPacket.cpp:53-172 | every id and payload that fits reads back, whatever the framing bytes |
| GalaxyBuds.LaidOutIsRead | core/src/sdk/sgb/GalaxyBudsPacket.cpp:53-123 | any packet laid out with one of the five ids, any payload that fits and any header is read with that id and payload, and as a request exactly if the legacy type byte is 0 or bit 12 of the header is set |
| GalaxyBuds.OtherIdsAreNot | core/src/sdk/sgb/GalaxyBudsPacket.cpp:86-91 | no other id is read |
| GalaxyBuds.OtherTypesAreNot | core/src/sdk/sgb/GalaxyBudsPacket.cpp:70-74 | no other legacy type byte is read |
| GalaxyBuds.TypeReadsBackIff | core/src/sdk/sgb/GalaxyBudsPacket.cpp:68-84 | for every id and payload that fits, the type written (request, lines 134 and 149-162) is the type read if and only if the model is legacy |
| GalaxyBuds.RequestReadAsResponse | core/src/sdk/sgb/GalaxyBudsPacket.cpp:80-84 | for one: the request 97 without payload is read as a response |
| GalaxyBuds.SentSplitsIff | core/src/sdk/sgb/GalaxyBudsPacket.cpp:24-51 | what is sent with any two framing bytes splits into itself, with nothing left over, if and only if they are the model's |
| GalaxyBuds.SplitUndoesEncode | core/src/sdk/sgb/GalaxyBudsPacket.cpp:19-172 | any list of packets written one behind the other splits into exactly those, with nothing left over |
| GalaxyBuds.BurstIsRejected | core/src/sdk/sgb/GalaxyBudsPacket.cpp:93-113 | a valid packet changed only within two neighbouring bytes of id and payload is rejected |
| GalaxyBuds.ChangedChecksumIsRejected | core/src/sdk/sgb/GalaxyBudsPacket.cpp:93-113 | so is one changed only in its checksum |
| GalaxyBuds.GalaxyBudsDevice.OnResponseDataReceived | core/src/device/GalaxyBudsDevice.cpp:17-23 | the responses fired and the bytes kept |
| GalaxyBuds.ChunkingDoesNotMatter | core/src/device/GalaxyBudsDevice.cpp:17-23 | the responses are the same for any cutting of the bytes into reads |
| Zik.Framer.Feed | core/src/sdk/zik/ZikProtocol.h:54-73 | the messages returned and the bytes kept |
| Zik.CutDoesNotMatterIff | core/src/sdk/zik/ZikProtocol.h:54-73 | two reads give what one read gives if and only if the first part keeps in sync, or nothing follows, or what follows starts with a bad length |
| Zik.CutMattersOutOfSync | core/src/sdk/zik/ZikProtocol.h:59-63 | for one: a zero length swallows the frame read together with it |
| Zik.WholeFramesAreRead | core/src/sdk/zik/ZikProtocol.h:25-31 | any list of frames is read back, with the right XML part |
| Zik.PrefixHolds | core/src/sdk/zik/ZikProtocol.h:54-73 | a prefix of a stream of frames gives its whole frames and keeps a proper part of the next |
| Zik.FramesSurviveChunking | core/src/sdk/zik/ZikProtocol.h:54-73 | so do successive reads, however the stream is cut |
| Event.EventListeners.DoSubscribe | core/src/Event.h:38-45 | a fresh id for a live listener |
| Event.EventListeners.Remove | core/src/Event.h:47-57 | the entry is taken out, or was not there and nothing changes |
| Event.EventListeners.MarkDead | core/src/Event.h:58-60 | with the entry's lock, the flag is cleared and the call returns |
| Event.EventListeners.Snapshot | core/src/Event.h:62-68 | the ids of the map, in the order they were given |
| Event.EventListeners.Look | core/src/Event.h:69-73 | a listener is called at its turn exactly if it is alive then |
| Event.RunKeepsInv | core/src/Event.h:38-74 | in every interleaving: locks are held by the threads inside the turns, as deep as they are nested; the dead stay out of the map |
| Event.NoCallAfterUnsubscribe | core/src/Event.h:47-60 | once the Unsubscribe that removed a listener returned, no call of it starts, and one still running is on the unsubscribing thread |
| Event.FireIsExact | core/src/Event.h:62-74 | at its end a fire has decided every turn of its snapshot in a move of its own, and called the listener, once and in subscription order, if and only if in the state of that very move no Unsubscribe that removed it had returned |
| Event.TurnIsDecided | core/src/Event.h:69-73 | in every run, the move that decides a turn calls the listener if and only if it is alive in that state |
| Event.TurnIsRemembered | core/src/Event.h:69-73 | and what was decided is what the fire has on record from then on |
| EventFires.SubscriberIsCalledOnce | core/src/Event.h:38-74 | in every interleaving, whoever subscribed before a fire began and is not being taken out before it ends is called by it exactly once |
| EventFires.OnlySubscribersAreCalled | core/src/Event.h:62-68 | a fire calls only who had subscribed before it began and was not being taken out by then |
| EventFires.ListenersAre | core/src/Event.h:38-60 | the map holds exactly who subscribed and was not taken out since |
| EventFires.NoThreadLocksItselfOut | core/src/Event.h:38-74 | in every reachable state a thread in the middle of something can go on, unless it waits for a lock that another thread holds |
| ClientSessions.BlockingQueue.Put | core/src/BlockingQueue.h:48-53 | appended, also to a closed queue |
| ClientSessions.BlockingQueue.Take | core/src/BlockingQueue.h:55-67 | the oldest element, or nothing if closed, which keeps what it holds |
| ClientSessions.BlockingQueue.Close | core/src/BlockingQueue.h:29-35 | closed, with what it holds |
| ClientSessions.BlockingQueue.Reopen | core/src/BlockingQueue.h:37-41 | empty and open |
| ClientSessions.RunKeepsInv | core/src/client/Client.cpp:32-139 | every state of every run keeps threads, sockets and packets consistent |
| ClientSessions.ThreadsUseTheirOwnOpenSocket | core/src/client/Client.cpp:58-123 | a reader or writer only uses the socket its session opened, and never after its close |
| ClientSessions.SentIsAPrefixOfPut | core/src/client/Client.cpp:55-71 | what a session sends is a prefix of what was put since its queue was reopened |
| ClientSessions.SessionsLogGrows | core/src/client/Client.cpp:55-71 | until the next reopening both only grow |
| ClientSessions.StartSetsOutIff | core/src/client/Client.cpp:32-43 | a start leaves a living session alone, and sets out for a new one if there is none or its reader is done |
| ClientSessions.StartComesTo | core/src/client/Client.cpp:32-162 | and ends with a running session after one to three attempts, or without one after three |
| ClientSessions.StopComesTo | core/src/client/Client.cpp:106-135 | a stop of what is started ends with socket and threads gone, else it does nothing |
| ClientSessions.OnlyItsSocketIsOpen | core/src/client/Client.cpp:111-123 | no socket but the client's own is open, failed attempts included |
| ClientSessions.NobodyIsStuck | core/src/client/Client.cpp:58-135 | a start or stop under way can go on, or a thread it waits for can |
| ClientSessions.ControlAdvances | core/src/client/Client.cpp:32-123 | and every move of it brings it nearer to its end |
| DeviceWorker.Device.OnConnectionReport | core/src/device/Device.cpp:67-83 | what a report leaves behind for the worker |
| DeviceWorker.Device.RequestClientStart | core/src/device/Device.cpp:91-99 | a start is pending, the reopenings are counted anew unless it is delayed |
| DeviceWorker.Device.OnChannelClosed | core/src/device/Device.cpp:46-58 | a closure asks for a delayed reopening while there are some left |
| DeviceWorker.Device.RequestClientStopForDisconnect | core/src/device/Device.cpp:191-200 | stops, forgets a pending start and uses up the reopenings |
| DeviceWorker.AtMostFiveReopenings | core/src/device/Device.cpp:46-58 | between two connected reports at most five closures are answered by a reopening |
| DeviceWorker.StopRunsFirst | core/src/device/Device.cpp:101-127 | a stop pending while the worker waits is what it does next |
| DeviceWorker.DisconnectKeepsChannelClosed | core/src/device/Device.cpp:101-127 | after a requested disconnect the idle worker's channel is closed until the next connected report, also if the request came in a delay or a running start |
| DeviceWorker.ConnectedReportOpens | core/src/device/Device.cpp:67-127 | after a connected report the worker does not idle before it opened the channel or tried to, unless the headphones disconnect or are asked to |
| DeviceWorker.ReportIsNotDelayed | core/src/device/Device.cpp:91-99 | and it does so without delay, unless the channel was closed meanwhile |
| DeviceWorker.ClosureIsAnsweredIff | core/src/device/Device.cpp:46-58 | a closure is answered by a delayed reopening if and only if fewer than five were since the last connected report and no disconnect was requested since |
| DeviceWorker.ClosureReopens | core/src/device/Device.cpp:46-58 | and then the worker does not idle before it opened the channel or tried to |
| DeviceWorker.StopIsServed | core/src/device/Device.cpp:101-116 | nor does it wait without a requested stop before it has stopped the client |
| DeviceWorker.WorkerTakes | core/src/device/Device.cpp:101-121 | the worker takes an exit before a stop before a start, once each, waiting first for a delayed one |
| DeviceWorker.StartOpens | core/src/device/Device.cpp:117-144 | left alone, a start opens the channel of connected headphones if it can, leaves an open one open, and the worker waits again |
| DeviceWorker.StopCloses | core/src/device/Device.cpp:109-116 | left alone, a stop closes the channel, and the worker waits again |
| DeviceWorker.ExitEndsWorker | core/src/device/Device.cpp:105-121 | after an exit the worker takes nothing more |
| BleScan.Scanner.StartScan | core/src/ble_ads/DBusBasedBleAdvertisingService.cpp:135-140 | session, then wish, under the mutex |
| BleScan.Scanner.StopScan | core/src/ble_ads/DBusBasedBleAdvertisingService.cpp:170-203 | wish dropped, then session |
| BleScan.Scanner.PauseBegins | core/src/ble_ads/DBusBasedBleAdvertisingService.cpp:36-38 | stops the session if the scan is wished |
| BleScan.Scanner.PauseEnds | core/src/ble_ads/DBusBasedBleAdvertisingService.cpp:42-46 | resumes exactly if the scan is still wished |
| BleScan.SessionFollowsWish | core/src/ble_ads/DBusBasedBleAdvertisingService.cpp:28-51 | with the mutex free, a running session is wished, and a wished scan is without session only in a pause |
| BleScan.PauseNeverResumesStopped | core/src/ble_ads/DBusBasedBleAdvertisingService.cpp:42-46 | a stopped scan stays stopped until the next StartScan |
| BleScan.PauseSilences | core/src/ble_ads/DBusBasedBleAdvertisingService.cpp:36-39 | a pause stops the session, until it resumes it or someone starts a scan |
| BleScan.PauseBeginsIff | core/src/ble_ads/DBusBasedBleAdvertisingService.cpp:36-38 | a pause begins exactly when a scan is wished |
| BleScan.StartedScanGoesOn | core/src/ble_ads/DBusBasedBleAdvertisingService.cpp:135-140 | a started scan runs whenever the mutex is free, pauses apart, until it is stopped |
| BleScan.MutexIsFreed | core/src/ble_ads/DBusBasedBleAdvertisingService.cpp:42-50 | who holds the mutex gives it back with what it came for done |
| AudioSwitch.RunKeepsInv | core/src/device/capabilities/aap/AapAudioSwitchCapability.cpp:284-303 | in every run: released exactly if not owning; claimed only while owning or between a takeover's claim and its end; the silent output exists exactly while holding |
| AudioSwitch.ClaimAsksEachOnce | core/src/device/capabilities/aap/AapAudioSwitchCapability.cpp:556-579 | each message of a claim goes exactly once to every listed or talking device except this computer, and to no other |
| AudioSwitch.AtMostOneReclaim | core/src/device/capabilities/aap/AapAudioSwitchCapability.cpp:349-363 | between two takeovers or reconnections there is at most one more claim |
| AudioSwitch.ParkedReportIsAnswered | core/src/device/capabilities/aap/AapAudioSwitchCapability.cpp:341-363 | "owns connection 0" for a live claim was put aside in the grace, and if still the last word afterwards, the next look answers it |
| AudioSwitch.HoldGivesBack | core/src/device/capabilities/aap/AapAudioSwitchCapability.cpp:365-382 | a hold that ends restores the output it began with if the silent one is still the default and that output exists, and leaves another pick alone |
| AudioSwitch.PickIsRespected | core/src/device/capabilities/aap/AapAudioSwitchCapability.cpp:371-376 | after a seen pick no hold starts until a look sees them not worn |
| AudioSwitch.ExitLeavesNoHold | core/src/device/capabilities/aap/AapAudioSwitchCapability.cpp:314-329 | the worker's exit leaves no hold, unless a takeover is under way |
| AudioSwitchRuns.PacketLetsGoIff | core/src/device/capabilities/aap/AapAudioSwitchCapability.cpp:442-520 | in every run, outside the grace another device's audio source, a message that sets the ownership to false and "owns connection 0" make this computer let go, the first two with one answer; no other packet, and none in the grace, changes owning, released or claimed |
| AudioSwitchRuns.LetsGoIff | core/src/device/capabilities/aap/AapAudioSwitchCapability.cpp:341-363 | in every run, owning ends in a step exactly by such a packet or by a look at which a report put aside is due |
| AudioSwitchRuns.LookClaimsIff | core/src/device/capabilities/aap/AapAudioSwitchCapability.cpp:353-363 | a look claims them once more exactly if a report is due, they play here and that was not done since the last takeover |
| AudioSwitchRuns.WordsAreNoted | core/src/device/capabilities/aap/AapAudioSwitchCapability.cpp:442-467 | the last word on the ownership and the kind of the source are noted whenever they come, in the grace too |
| AudioSwitchRuns.TalkersAre | core/src/device/capabilities/aap/AapAudioSwitchCapability.cpp:549-554 | this computer remembers exactly who spoke up since the last connection |
| AudioSwitchRuns.TalkersAreDistinct | core/src/device/capabilities/aap/AapAudioSwitchCapability.cpp:549-554 | and nobody twice |
| AudioSwitchRuns.TalkerIsAsked | core/src/device/capabilities/aap/AapAudioSwitchCapability.cpp:556-579 | so every later claim asks whoever spoke up, once |
| AudioSwitchRuns.NewcomersAreIntroduced | core/src/device/capabilities/aap/AapAudioSwitchCapability.cpp:468-491 | a list counts from then on, and every device new on it, this computer apart, is told of it once in both messages |
| AudioSwitchRuns.ResetStartsAnew | core/src/device/capabilities/aap/AapAudioSwitchCapability.cpp:284-303 | a new connection starts with this computer owning them, unclaimed, knowing nobody |
| AudioSwitchRuns.TakeoverBeginsIff | core/src/device/capabilities/aap/AapAudioSwitchCapability.cpp:581-584 | a takeover begins, where there is none, exactly by playback, by the user, or once they are worn after a connection in the case |
| AudioSwitchRuns.TakeoverGoesOnIff | core/src/device/capabilities/aap/AapAudioSwitchCapability.cpp:597-606 | and goes on exactly if manual, or automatic, worn, not in another device's call and not here already under a confirmed claim |
| AudioSwitchRuns.TakeoverEnds | core/src/device/capabilities/aap/AapAudioSwitchCapability.cpp:609-686 | in every run it ends with the connection failed, or with a claim sent and this computer owning them |
| AudioSwitchRuns.TakeoverAdvances | core/src/device/capabilities/aap/AapAudioSwitchCapability.cpp:581-686 | it never stalls |
| AudioSwitchRuns.TakeoverRearms | core/src/device/capabilities/aap/AapAudioSwitchCapability.cpp:650-652 | and allows one more claim later |
| AudioSwitchRuns.KeptInGrace | core/src/device/capabilities/aap/AapAudioSwitchCapability.cpp:442-444 | while the grace lasts, what was taken is kept, whatever comes in |
| AudioSwitchRuns.HoldsIff | core/src/device/capabilities/aap/AapAudioSwitchCapability.cpp:365-408 | in every run, exactly when a look begins a hold and when one goes on |
| AudioSwitchRuns.BlocksIff | core/src/device/capabilities/aap/AapAudioSwitchCapability.cpp:331-408 | and exactly when no hold is to begin |
| AudioSwitchRuns.CaseIsRemembered | core/src/device/capabilities/aap/AapAudioSwitchCapability.cpp:241-250 | AirPods connected in their case are taken over at the first look that finds them worn |
| AudioSwitchRuns.CaseIsNotedIff | core/src/device/capabilities/aap/AapAudioSwitchCapability.cpp:238-250 | and that is remembered exactly if this computer has them and no takeover is under way |
| AudioSwitchRuns.WishIsFulfilledOnce | core/src/device/capabilities/aap/AapAudioSwitchCapability.cpp:341-342 | once |
| AudioSwitchRuns.ExitIsLast | core/src/device/capabilities/aap/AapAudioSwitchCapability.cpp:326-328 | the worker's exit is its last look |
| AudioSwitchCapability.Capability.OnReceivedData | core/src/device/capabilities/aap/AapAudioSwitchCapability.cpp:429-520 | the new state for every kind of packet |
| AudioSwitchCapability.Capability.OnDeviceList | core/src/device/capabilities/aap/AapAudioSwitchCapability.cpp:468-491 | the list is replaced, and every new device other than this computer is introduced to it |
| AudioSwitchCapability.Capability.Talking | core/src/device/capabilities/aap/AapAudioSwitchCapability.cpp:549-554 | whoever talks is remembered once, this computer not |
| AudioSwitchCapability.Capability.Release | core/src/device/capabilities/aap/AapAudioSwitchCapability.cpp:522-528 | neither owning nor claimed, answered if asked |
| AudioSwitchCapability.Capability.Claim | core/src/device/capabilities/aap/AapAudioSwitchCapability.cpp:556-579 | the messages sent, in order, and how many were asked |
| AudioSwitchCapability.Capability.Reset | core/src/device/capabilities/aap/AapAudioSwitchCapability.cpp:284-303 | the state of a new connection |
| AudioSwitchCapability.Capability.TakeOverMoves | core/src/device/capabilities/aap/AapAudioSwitchCapability.cpp:581-686 | each stretch of the takeover's thread |
| AudioSwitchCapability.Capability.TakeOver | core/src/device/capabilities/aap/AapAudioSwitchCapability.cpp:581-584 | one takeover at a time |
| AudioSwitchCapability.Capability.AnswerReport | core/src/device/capabilities/aap/AapAudioSwitchCapability.cpp:353-363 | a report put aside is answered when due |
| AudioSwitchCapability.Capability.NextHold | core/src/device/capabilities/aap/AapAudioSwitchCapability.cpp:365-408 | a hold goes on, ends, begins or stays away |
| AudioSwitchCapability.Capability.UpdateHold | core/src/device/capabilities/aap/AapAudioSwitchCapability.cpp:331-408 | one look of the worker |
| AudioSwitchCapability.Capability.WorkerExits | core/src/device/capabilities/aap/AapAudioSwitchCapability.cpp:326-328 | the last look, with holds blocked |
| SmartRouting.BannerName | core/src/device/capabilities/aap/AapAudioSwitchCapability.cpp:64-75 | for a valid UTF-8 name over 32 bytes the longest valid prefix of at most 32 bytes; for any bytes a prefix that does not end before a continuation byte |
| SmartRouting.ValidPrefixIff | core/src/device/capabilities/aap/AapAudioSwitchCapability.cpp:64-75 | a prefix of a valid name is valid exactly if it ends where a character does |
| SmartRouting.ReadItemsUndoesEncoded | core/src/device/capabilities/aap/AapAudioSwitchCapability.cpp:22-28 | items that fit read back as their values, references resolved |
| SmartRouting.SmartRoutingPacket | core/src/device/capabilities/aap/AapAudioSwitchCapability.cpp:53-62 | header, reversed address, 16-bit length, body |
| SmartRouting.MediaInformation | core/src/device/capabilities/aap/AapAudioSwitchCapability.cpp:77-91 | for every address and name the packet's length field is right and the body is the intended dictionary |
| SmartRouting.NewDeviceInformation | core/src/device/capabilities/aap/AapAudioSwitchCapability.cpp:95-109 | the same for its dictionary |
| SmartRouting.AddTiPiDevice | core/src/device/capabilities/aap/AapAudioSwitchCapability.cpp:111-125 | the same for its dictionary |
| SmartRouting.ShowNearbyUI | core/src/device/capabilities/aap/AapAudioSwitchCapability.cpp:141-157 | the same, with both back-references resolved |
| SmartRouting.HijackRequest | core/src/device/capabilities/aap/AapAudioSwitchCapability.cpp:159-173 | the same, with its back-reference resolved |
| SmartRouting.NearbyReferences | core/src/device/capabilities/aap/AapAudioSwitchCapability.cpp:141-157 | both later scores refer to the first |
| SmartRouting.HijackReferences | core/src/device/capabilities/aap/AapAudioSwitchCapability.cpp:159-173 | the remote score refers to the one before |
| RequestQueues.RequestQueue.Push | core/src/sdk/aap/Att.h:45-51 | what waits, and what to send now; a request older than two seconds is given up |
| RequestQueues.RequestQueue.Answered | core/src/sdk/aap/Att.h:54-59 | the handle answered and what to send next |
| RequestQueues.RequestQueue.Clear | core/src/sdk/aap/Att.h:61-65 | nothing waits, nothing is in flight |
| RequestQueues.AttRunKeepsInv | core/src/sdk/aap/Att.h:39-84 | idle means nothing waits; sent followed by waiting is what was accepted; answers are the handles of the requests not given up, in order |
| RequestQueues.AnswersPairUp | core/src/sdk/aap/Att.h:39-84 | for every run in which the other side answers a request at most once and only after it was sent: every response is taken for the request it answers if and only if none comes for a request given up before |
| RequestQueues.OnlyALatePushGivesUp | core/src/sdk/aap/Att.h:45-51 | a request is given up exactly by a push more than two seconds after its sending while it is unanswered |
| RequestQueues.TakenReturnsItsHandle | core/src/sdk/aap/Att.h:54-59 | a response taken for its own request returns the handle of that push |
| RequestQueues.KthAnswerIsKthPush | core/src/sdk/aap/Att.h:39-84 | so with none given up, the k-th answer returns the k-th handle pushed |
| RequestQueues.LateAnswerIsMistaken | core/src/sdk/aap/Att.h:47-48 | for one: the answer to the first request, come after a push that gave it up, returns the second request's handle |
| RequestQueues.ZikDevice.Query | core/src/device/ZikDevice.cpp:50-58 | queued unless it waits already, and sent if nothing is in flight |
| RequestQueues.ZikDevice.Set | core/src/device/ZikDevice.h:38-46 | the set and then the get are asked for |
| RequestQueues.ZikDevice.SendNextLocked | core/src/device/ZikDevice.cpp:60-69 | the oldest query goes out and is in flight |
| RequestQueues.ZikDevice.ResetSession | core/src/device/ZikDevice.cpp:42-48 | nothing waits, nothing is in flight |
| RequestQueues.ZikDevice.OnMessage | core/src/device/ZikDevice.cpp:71-108 | what each message does to the queue |
| RequestQueues.ZikDevice.Poll | core/src/device/ZikDevice.cpp:26-37 | frees a queue stuck for five seconds, then asks for the battery |
| RequestQueues.ReceiveIsARun | core/src/device/ZikDevice.cpp:71-108 | an opened session asks all initial queries, a notification asks for its path, and an answer frees the queue, with a notification or without |
| RequestQueues.SetIsARun | core/src/device/ZikDevice.h:38-46 | a set is a run of two asks |
| RequestQueues.PollIsARun | core/src/device/ZikDevice.cpp:26-37 | a look of the poller is a run of a giving up, if due, and an ask |
| RequestQueues.ZikRunKeepsInv | core/src/device/ZikDevice.cpp:15-108 | over every run, resets included: idle means nothing waits, what waits is distinct, and sent followed by waiting equals what was accepted since the last reset |
| RequestQueues.SentThenWaitingIsAccepted | core/src/device/ZikDevice.cpp:15-108 | so it is from the start of a session on |
| RequestQueues.SessionGrows | core/src/device/ZikDevice.cpp:15-108 | until the next reset, what was accepted stays in front, in order |
| RequestQueues.AskedIsSentOrWaits | core/src/device/ZikDevice.cpp:50-58 | a query, dropped as a duplicate or not, waits or was sent since the call, until the session resets |
| RequestQueues.AnswersDrain | core/src/device/ZikDevice.cpp:103-106 | after as many answers as queries waited, each was sent |
| RequestQueues.SetIsFollowedByGetIff | core/src/device/ZikDevice.h:38-46 | a set is followed by its get if and only if no equal get waits ahead of it |
| RequestQueues.SetWithoutGet | core/src/device/ZikDevice.h:38-46 | for one, from the start of a session: a first query in flight and the get waiting, the set comes behind it and its own get is dropped |
| Transparency.Parse | core/src/sdk/aap/Att.h:100-124 | refuses less than 100 bytes, else reads each field from its place |
| Transparency.Encode | core/src/sdk/aap/Att.h:126-147 | the words of the settings, little-endian |
| Transparency.SettingsStand | core/src/sdk/aap/Att.h:126-147 | every setting stands at its place, low byte first: the switch, the left bud from word 1, the right one from word 13, the own voice last |
| Transparency.ParseUndoesEncode | core/src/sdk/aap/Att.h:100-147 | settings written and read back are the same |
| Transparency.EncodeUndoesParseIff | core/src/sdk/aap/Att.h:100-147 | a value read is written back byte for byte if and only if it has 100 or 104 bytes and its first float is 1.0 or 0.0 |
| JsonToml.JsonObjectToToml | core/src/settings/JsonToTomlConverter.cpp:32-55 | the loop converts member by member, nulls dropped |
| JsonToml.JsonArrayToToml | core/src/settings/JsonToTomlConverter.cpp:10-30 | the loop converts item by item, nulls dropped |
| JsonToml.JsonToToml | core/src/settings/JsonToTomlConverter.cpp:59-64 | refuses anything but an object |
| JsonToml.TomlArrayToJson | core/src/settings/JsonToTomlConverter.cpp:68-74 | item by item |
| JsonToml.TomlTableToJson | core/src/settings/JsonToTomlConverter.cpp:76-82 | key by key |
| JsonToml.TomlNodeToJson | core/src/settings/JsonToTomlConverter.cpp:84-99 | each kind of node, unsupported ones to null |
| JsonToml.TomlMeansTheSame | core/src/settings/JsonToTomlConverter.cpp:10-55 | what a JSON value is converted to means the same: same truth value, number or text, same items in order, same members, without what TOML has no word for |
| JsonToml.JsonMeansTheSame | core/src/settings/JsonToTomlConverter.cpp:68-99 | and so does what a TOML value without dates and times is converted to |
| JsonToml.JsonSurvivesIff | core/src/settings/JsonToTomlConverter.cpp:10-55 | JSON to TOML and back removes exactly the nulls, at every depth, if and only if the integers are in signed 64-bit range |
| JsonToml.MembersSurviveIff | core/src/settings/JsonToTomlConverter.cpp:32-55 | the same for the members of an object |
| JsonToml.PrunedHasNoNulls | core/src/settings/JsonToTomlConverter.cpp:10-55 | what comes back holds no null anywhere |
| JsonToml.TomlSurvivesIff | core/src/settings/JsonToTomlConverter.cpp:68-99 | TOML to JSON and back is unchanged if and only if it holds no date or time |

## Left out

- EffectChain.RunRelated: a lost write of `SetYaw` or `SetVolume` leaves the running gains or angles behind the recorded ones until a later command corrects them; for such runs only key and sink are stated.
- EffectMeaning.BypassIsPreGain: numbers are reals, so the rounding of floating point samples is not modelled, and nothing is said behind the limiter, a foreign plugin.
- Event.NoCallAfterUnsubscribe: the removing call's lock, clear and unlock are one step; a second Unsubscribe of the same id returns at once and promises nothing.
- Event.FireIsExact: listeners are given ids without the wrap-around of a 64-bit counter, and a listener's function is a step that returns, not one that throws.
- ClientSessions.RunKeepsInv: Start and Stop called from the client's own threads (where a thread is detached instead of joined) are not in the runs; Start and Stop are steps on values, because the reader and writer move between any two of them.
- DeviceWorker.DisconnectKeepsChannelClosed: the worker's loop is steps on values for the same reason, and the final Shutdown is not part of the runs.
- AudioSwitch.RunKeepsInv: a handler is atomic; the name of the other device, the Bluetooth profile kept for later and the threads that route or pause audio are not in the state.
- RequestQueues.ZikRunKeepsInv: a Zik without a client, which keeps every query waiting, is not modelled.
- BleScan.SessionFollowsWish: D-Bus errors, the adapter losing power and the subscription maps are not modelled.
- HeadroomDb's claim that nothing clips: it samples magnitudes on a frequency grid, which does not bound samples in time.
- The peak search, the ISO 226 contour and the shelf fitted to it, and the HRTF data: measured numbers.
- The text around nodes and links in the generated configuration, and the Equalizer APO section on Windows.
- Parsing of ParametricEQ files, bands and audiograms, the presets and the capability JSON: short, and would only add easy members.
- Parsing of AAP packets, regex lookup in Zik XML and string formatting.
- Sockets, SDP, D-Bus, process spawning, Windows services, the user interface, encryption of advertisements.
- Liveness: that a thread which may move does move, and wall-clock durations other than as counters compared with the constants.
