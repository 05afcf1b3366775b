# Machine payments: a verified model

The repository implements machine payments over HTTP: a server answers 402 with a challenge, the client
pays and retries with a credential. This project models, in Dafny, the parts that carry the money and
proves what they promise.

**Payment-channel sessions.** `ChannelStore`, `SessionMethod` and `SessionProtocol` model the server side
of a one-way payment channel: open, top-up, voucher, close and deduct. A handler takes a snapshot, checks it
(sometimes after a chain read) and then runs one atomic update on whatever the store holds by then. The
classes do this in place; `SessionProtocol` cuts each handler at its reads and turns the server into a step
relation whose state is the store, the chain and the handlers in flight. A payload is any text, so a network
that loses, repeats, reorders or invents requests is included. On runs of that relation:

- `Overdraft`: exactly when spent <= highest voucher <= on-chain deposit holds on every unfinalized channel and
  every stored deposit is on the chain; the same with finalized channels, whose close does not re-check.
- `Settlement`: when the recorded amount and signature form a pair that verifies.
- `Ledger`: spent is the sum of successful deductions since the last opening; what a channel id pays out over
  its life.
- `VoucherOrder`: concurrent vouchers refine a single maximum register.
- `SessionClient` and `JointSession`: the paying side, and both sides joined.

**Wire formats.** `AuthParams` and `AuthGrammar` (the hand-written auth-param scanner, the escaping printer,
and what the scanner reads), `Headers`
(challenge printer and parsers, Rust and TypeScript), `Base64Url` (bit-level coder), `Voucher` (ULEB128 and
BCS, both encoders), `ChallengeId` (the hashed preimage) and `ChallengeFlow` (from issuing a challenge to
accepting the credential that answers it).

**Amounts.** `Amounts`: the checked 128-bit converter and the string-padding converter.

**Example servers.** `RateLimiter` (two fixed-window limiters with eviction), `TokenMeter` (pay-per-token
accounting with background settling) and `SseClient` (event splitter and voucher loop).

`Text` holds what they share: outcomes, white space, decimal and hexadecimal numerals.

## Conventions

- Code that changes state is a class or a method with loops, proved against a function of the old state;
  lemmas about that function carry the results. Machine widths are explicit: `U64` and `U128` make every
  overflow an obligation, and where the source wraps the model takes the remainder.
- The signature scheme, the keyed hash, the JSON codec and the time format are parameters. A lemma that
  needs something of them says so: signatures nobody can forge, a codec whose reader inverts its writer, a
  hash of 32 octets.
- Answers of the chain's REST interface are inputs. In `SessionProtocol` a reply about a channel shows the
  deposit at the moment of the read (or zero, as the source reads a malformed answer), and deposits only grow.
- `opaque` is a word of the language, so the challenge field of that name is called `correlation`.

## What the proofs found

- A close checks its amount against a snapshot and writes it unconditionally, so a finalized channel can end
  with a highest amount below what is spent (`StaleCloseUndercuts`) or above the deposit (`CloseAboveDeposit`).
  `SolventExactly` gives the exact condition over a whole run.
- A top-up reads the contract its own request names. If requests for one channel name two contracts, the
  stored deposit can exceed the recorded chain's (`TwoContractsBreak`). `NoOverdraft` gives the exact
  condition, and one contract a channel is enough (`OneContractSuffices`).
- An opening zeroes `spent` and can be sent again: a channel can then pay out more than its deposit
  (`ReplayedOpening`). `NothingForgotten` says when its record still tells all deductions.
- An opening replaces the signer key without looking at vouchers in flight. A voucher checked
  under the old key then raises a record it does not fit (`ReplacedKeyBreaks`). `SettleableExactly` says when
  the recorded pair still verifies, and one key a channel is enough (`OneKeySettles`).
- The comment at `src/protocol/core/challenge.rs:460-462` says that an absent optional and a present one give
  different ids. An absent and an empty one do not (`AbsentIsEmpty`); the model follows the code.
- The client's channel key joins payee, currency and module by colons; a colon inside one of them can move
  (`ColonsCollide`). Without colons in payees and modules it is exact (`EntryKeyExactly`).
- A challenge id binds its fields exactly when none has a pipe (`IdBindsExactly`): the text around a pipe can
  move into the neighbouring field.
- The TypeScript parser takes a present but empty optional for an absent one (`TsReadsRust`), its ULEB128
  loop works in 32 bits (`EncodersAgree`), and its base64url decoder drops a write when one character is left
  over (`WritesFit`).
- Eviction in both rate limiters is invisible exactly when the maximum is at least one
  (`EvictionInvisibleExactly`): at zero an expired window still admits the request that resets it. The bound
  per interval is 2 * max - 1, and that is attained (`RateBound`, `RateBoundTight`).
- The streaming server closes a channel with the amount of the delivered tokens but the signature of the
  highest voucher; the pair verifies exactly when nothing is refunded (`ClosePairVerifies`).

## Model

| member | source | states |
|---|---|---|
| `ChannelStore.InMemoryChannelStore.GetChannel` | src/protocol/methods/movement/session_method.rs:161-169 | reads one record, changes nothing |
| `ChannelStore.InMemoryChannelStore.UpdateChannel` | src/protocol/methods/movement/session_method.rs:171-196 | one atomic step: the updater sees the current record; its answer is stored, removed or, on a refusal, dropped; every other channel stays |
| `ChannelStore.InMemoryChannelStore.DeductFromChannel` | src/protocol/methods/movement/session_method.rs:97-126 | succeeds exactly when the charge fits under the highest voucher (a zero charge always); adds it to `spent`, counts a unit and leaves the rest alone; a refusal changes nothing and tells what was left |
| `SessionMethod.CheckSignature` | src/protocol/methods/movement/session_method.rs:905-935 | accepts exactly the hexadecimal text of a 64-byte signature that verifies for this channel and amount under a 32-byte key; tells malformed from false |
| `SessionMethod.MinDelta` | src/protocol/methods/movement/session_method.rs:493-500 | the readable minimum of the challenge, else the configured one |
| `Text.DecodeHexExactly` | src/protocol/methods/movement/session_method.rs:469-473 | text reads as bytes if and only if its lower case is how they print |
| `Text.PrefixOptional` | src/protocol/methods/movement/session_method.rs:469-473 | with or without the `0x` in front |
| `SessionMethod.Handler.HandleOpen` | src/protocol/methods/movement/session_method.rs:507-632 | taken exactly on a successful transaction, a funded live channel that covers the first voucher, and a signature under the named key; then, with any updates landing in between, the record is replaced by a fresh one with nothing spent |
| `SessionMethod.OpenMeans` | src/protocol/methods/movement/session_method.rs:541-629 | the same about the decision, field by field of the record |
| `SessionMethod.OpenRefusals` | src/protocol/methods/movement/session_method.rs:541-594 | which refusal an opening gets |
| `SessionMethod.Handler.HandleTopUp` | src/protocol/methods/movement/session_method.rs:643-701 | taken exactly when the channel was and is there, its id reads, transaction and chain answered and the chain holds more than the snapshot; the record then differs only in carrying that deposit |
| `SessionMethod.TopUpMeans` | src/protocol/methods/movement/session_method.rs:659-683 | the same about the decision, and which refusal is given |
| `SessionMethod.Handler.HandleVoucher` | src/protocol/methods/movement/session_method.rs:709-747 | taken exactly when the channel is there and live, the amount within the deposit, and the voucher repeats the recorded pair or is signed and not above it or a large enough step above it; an old one changes nothing, a larger one raises the record of the moment |
| `SessionMethod.VoucherMeans` | src/protocol/methods/movement/session_method.rs:857-924 | the same about the decision: no acknowledgement without a repeated pair or a verified signature |
| `SessionMethod.VoucherRefusals` | src/protocol/methods/movement/session_method.rs:715-924 | which refusal a voucher gets |
| `SessionMethod.Handler.VerifyAndAcceptVoucher` | src/protocol/methods/movement/session_method.rs:842-963 | the checks in their order (deposit, replay, delta, signature); Ok only for a good voucher, and for every good one unless its channel is gone at the update |
| `SessionMethod.Handler.HandleClose` | src/protocol/methods/movement/session_method.rs:754-837 | taken exactly when the record is there, live and not above the amount, and the amount is signed; then amount, signature and `finalized` are written unconditionally |
| `SessionMethod.CloseMeans` | src/protocol/methods/movement/session_method.rs:763-812 | the same about the decision, and which refusal is given |
| `Overdraft.NoOverdraft` | src/protocol/methods/movement/session_method.rs:541-952 | main result: all along a run, in every interleaving of the cut handlers, stored deposit <= on-chain deposit, and spent <= highest <= on-chain deposit while unfinalized, if and only if every landing top-up finds its deposit, and every landing voucher that raises an unfinalized record its amount, on the chain of the record |
| `Overdraft.OneContractSuffices` | src/protocol/methods/movement/session_method.rs:541-615 | with one contract a channel this always holds |
| `Overdraft.StepSoundExactly` | src/protocol/methods/movement/session_method.rs:690-697 | one step keeps the records covered if and only if its landing update is |
| `Overdraft.SolventExactly` | src/protocol/methods/movement/session_method.rs:784-833 | closed channels included, every record stays covered along a run if and only if every landing close finds its amount between what is spent and what is deposited, and every voucher that raises its amount deposited |
| `Overdraft.ClosesDecide` | src/protocol/methods/movement/session_method.rs:784-833 | with one contract a channel only the closes decide |
| `Overdraft.StaleCloseUndercuts` | src/protocol/methods/movement/session_method.rs:818-833 | a run of five steps after which a finalized channel has spent more than its highest amount |
| `Overdraft.CloseAboveDeposit` | src/protocol/methods/movement/session_method.rs:784-833 | a run of four steps after which a finalized channel has a highest amount above its deposit |
| `Overdraft.TwoContractsBreak` | src/protocol/methods/movement/session_method.rs:659-697 | a run in which a top-up through another contract stores more than the recorded chain holds |
| `Settlement.SettleableExactly` | src/protocol/methods/movement/session_method.rs:905-950 | the recorded pair verifies at every point of a run if and only if no checked voucher or close lands on a record that meanwhile carries another key |
| `Settlement.ReplacedKeyBreaks` | src/protocol/methods/movement/session_method.rs:606-629 | a run of six steps, an opening under another key overtaking a checked voucher, after which the recorded pair does not verify |
| `Settlement.OneKeySettles` | src/protocol/methods/movement/session_method.rs:583-629 | with one signer key a channel, the server can always settle what it recorded |
| `Ledger.Conserved` | src/protocol/methods/movement/session_method.rs:97-126 | after any run `spent` is the exact sum of successful deductions since the last opening, `units` their number modulo 2^64 |
| `Ledger.LifetimeConserved` | src/protocol/methods/movement/session_method.rs:606-627 | over the life of a channel id all successful deductions are what the record says is spent and what openings overwrote |
| `Ledger.NothingForgotten` | src/protocol/methods/movement/session_method.rs:606-627 | the record tells all of them if and only if no opening landed on a record with spending |
| `Ledger.LifetimeWithinDeposit` | src/protocol/methods/movement/session_method.rs:97-126 | then, landing updates covered and the channel unfinalized, all that was ever deducted <= highest <= on-chain deposit |
| `Ledger.ReplayedOpening` | src/protocol/methods/movement/session_method.rs:507-629 | one opening sent twice and spent twice: six steps that deduct the first voucher twice |
| `VoucherOrder.RefinesRegister` | src/protocol/methods/movement/session_method.rs:857-952 | two-phase voucher handling ends with what an atomic maximum register holds after the accepted amounts |
| `VoucherOrder.RegisterIsMaximum` | src/protocol/methods/movement/session_method.rs:938-950 | that register is the least upper bound of its inputs |
| `VoucherOrder.OrderIrrelevant` | src/protocol/methods/movement/session_method.rs:709-747 | two runs accepting the same amounts in any order end with the same highest amount |
| `SessionClient.ResolveDeposit` | src/client/movement/session.rs:207-220 | a readable suggestion up to the cap; without one the cap, without either the default; refused only without all three |
| `SessionClient.SessionProvider.Pay` | src/client/movement/session.rs:238-361 | the entries and the answer are those of `Answered` |
| `SessionClient.AnsweredMeans` | src/client/movement/session.rs:265-360 | on an open entry of the same key the total is raised by the amount (modulo 2^64) and signed, nothing else changes; any other answered request records a new channel with its amount signed |
| `SessionClient.RefusedMeans` | src/client/movement/session.rs:246-292 | a refusal changes nothing, and which one is given |
| `SessionClient.EntryKeyExactly` | src/client/movement/session.rs:223-230 | for payees and modules without a colon, two requests share a channel if and only if payee, currency and module agree but for case |
| `SessionClient.ColonsCollide` | src/client/movement/session.rs:223-230 | with a colon inside, different payees and currencies share a key |
| `SessionClient.PaidOnOwnChannel` | src/client/movement/session.rs:265-286 | over any sequence of requests, one is paid on an existing channel only if an earlier one named the same payee, currency and module |
| `SessionClient.SessionProvider.Close` | src/client/movement/session.rs:144-174 | signs the current total of some open channel, if there is one |
| `JointSession.NeverAboveSigned` | src/client/movement/session.rs:265-286 | main result: over any network, the server's highest voucher on a client's channel was signed by the client and is at most its running total, the largest amount it ever signed there |
| `JointSession.JointRunInv` | src/client/movement/session.rs:330-347 | the invariant behind it: every amount held or in flight is signed, and totals only grow |
| `JointSession.OpenInSync` | src/protocol/methods/movement/session_method.rs:541-629 | the client's opening is accepted exactly when the channel is funded, live and covers the amount; the server then holds the client's total |
| `JointSession.RequestInSync` | src/protocol/methods/movement/session_method.rs:842-963 | one delivered voucher: the server holds the client's total exactly when it is within the deposit and the step is nil or large enough |
| `JointSession.VoucherRoundServed` | src/protocol/methods/movement/session_method.rs:709-747 | pay, read and land, as three events of the joint run, do to the store what the uninterrupted handler does and leave nothing in flight |
| `JointSession.SessionInSync` | src/client/movement/session.rs:265-286 | main result: with in-order lossless delivery, from the opening on, both totals agree after every request if and only if the channel is funded and live, every voucher is zero or at least the minimum and the final total is within the deposit |
| `JointSession.CloseInSync` | src/protocol/methods/movement/session_method.rs:754-833 | a client that is not behind always gets its close accepted with its own total, whatever the deposit |
| `JointSession.ReadsBack` | src/client/movement/session.rs:265-286 | the client's printed amounts, ids and signatures read back at the server and verify |
| `AuthParams.ParseAuthParams` | src/protocol/core/headers.rs:105-170 | the index loop computes the recursive scan and ends on every input |
| `AuthParams.ScanRound` | src/protocol/core/headers.rs:111-167 | one round of the loop; unless the text ends, the index strictly rises |
| `AuthParams.ReadQuoted` | src/protocol/core/headers.rs:138-152 | the quoted-string loop of section 5.6.4 of RFC 9110 |
| `AuthParams.QuotedOfEscape` | src/protocol/core/headers.rs:78-85 | escaping and reading back is the identity on every text, whatever follows the closing quote |
| `AuthParams.ScanJoined` | src/protocol/core/headers.rs:105-170 | scanning a printed parameter list gives exactly its pairs |
| `AuthGrammar.ScanExactly` | src/protocol/core/headers.rs:160-166 | main result: the scan succeeds if and only if no two pairs it reads have one name, and then returns them; else it names the first that repeats another |
| `AuthGrammar.PrintedRepeats` | src/protocol/core/headers.rs:160-166 | a printed list, repeated names included, reads as its pairs, so it is refused if and only if a name is repeated |
| `AuthGrammar.PairsOfList` | src/protocol/core/headers.rs:108-159 | main result: quoted and bare parameters are read in order, whatever gaps separate them and whatever words stand between them |
| `AuthGrammar.QuotedOfSpelling` | src/protocol/core/headers.rs:134-150 | however a value is spelled inside its quotes, it is read up to the closing one |
| `AuthGrammar.LastQuoteOpen` | src/protocol/core/headers.rs:134-150 | a last value without its closing quote is read to the end |
| `AuthGrammar.LoneBackslash` | src/protocol/core/headers.rs:138-143 | there a last lone backslash stands for itself |
| `AuthGrammar.LastNameDropped` | src/protocol/core/headers.rs:127-132 | a last name with nothing after its equals sign is dropped |
| `AuthParams.ScannersAgree` | ts/client/src/challenge.ts:14-67 | the TypeScript scanner equals the Rust one on every text whose white space is spaces and tabs |
| `Headers.FormatWwwAuthenticate` | src/protocol/core/headers.rs:314-353 | the list-pushing printer computes the functional one |
| `Headers.HeaderRoundTrip` | src/protocol/core/headers.rs:199-256 | main result: a challenge prints exactly when no field has a line break, and its header parses back to it if and only if it is well formed, absent and empty optionals kept apart |
| `Headers.HeaderText` | src/protocol/core/headers.rs:314-353 | the header written out: five parameters always, four when present, in this order |
| `Headers.PrintsUnbroken` | src/protocol/core/headers.rs:78-85 | a challenge prints if and only if no present field has a line break |
| `Headers.StripSchemeExactly` | src/protocol/core/headers.rs:31-44 | the scheme name is found in any case after any white space, and nothing else is |
| `Headers.ParseMeans` | src/protocol/core/headers.rs:199-211 | after the scheme name a space or tab is due; the list decides the rest |
| `Headers.FromParamsMeans` | src/protocol/core/headers.rs:213-255 | parameters make a challenge if and only if they are complete; it then holds them; a refusal names something wrong with them |
| `Headers.FromPartsExactly` | src/protocol/core/headers.rs:207-255 | the field checks accept exactly the well-formed challenges |
| `Headers.TsReadsRust` | ts/client/src/challenge.ts:74-130 | the TypeScript parser returns the same challenge if and only if no field is empty |
| `Headers.ParseTsMeans` | ts/client/src/challenge.ts:74-80 | the scheme name in any case, a space, then the list |
| `Headers.FromParamsTsMeans` | ts/client/src/challenge.ts:82-126 | what the TypeScript parser asks of the parameters, and what it makes of them |
| `Base64Url.EncodeLoop` | ts/client/src/base64url.ts:7-20 | the appending loop computes the group-wise encoding |
| `Base64Url.EncodeShape` | ts/client/src/base64url.ts:7-20 | ceiling of 4n/3 characters, all from the URL-safe alphabet of section 5 of RFC 4648 |
| `Base64Url.DecodeLoop` | ts/client/src/base64url.ts:22-41 | the lookup and shift loop computes the group-wise decoding and advances its index as counted |
| `Base64Url.WritesFit` | ts/client/src/base64url.ts:28-40 | the write index stays in the buffer exactly when the length is not 1 modulo 4 |
| `Base64Url.DecodeEncode` | ts/client/src/base64url.ts:7-41 | main result: decoding undoes encoding for every octet sequence, and the buffer is filled exactly |
| `Base64Url.DecodePadded` | ts/client/src/base64url.ts:25-27 | padding, however much, changes nothing |
| `Base64Url.ForeignIsA` | ts/client/src/base64url.ts:23-36 | a foreign character decodes like the first of the alphabet |
| `Base64Url.DecodeStrictExact` | src/protocol/core/headers.rs:396-400 | the server's strict tests (no lone character, alphabet only, spare bits zero) accept exactly the encoder's output |
| `Voucher.SerializeUleb128` | src/protocol/methods/movement/voucher.rs:100-112 | the shifting loop appends the ULEB128 text of the value |
| `Voucher.ReadUlebOfUleb` | src/protocol/methods/movement/voucher.rs:100-112 | the prefix reads back whatever follows it |
| `Voucher.SerializeVoucher` | src/protocol/methods/movement/voucher.rs:21-32 | length prefix, id and eight little-endian bytes |
| `Voucher.VoucherRoundTrip` | src/protocol/methods/movement/voucher.rs:21-32 | a voucher reads back exactly |
| `Voucher.VoucherInjective` | src/protocol/methods/movement/voucher.rs:60-88 | different vouchers are different signed messages |
| `Voucher.SignatureBinds` | src/protocol/methods/movement/voucher.rs:74-95 | a signature of one message is good for one channel and one amount, and only under the authorized key |
| `Voucher.UlebTs` | ts/client/src/movement/voucher.ts:40-50 | the 32-bit loop, where it ends |
| `Voucher.UlebTsNeverEnds` | ts/client/src/movement/voucher.ts:43-48 | from a length that is negative in 32 bits the exit test is never met |
| `Voucher.SerializeVoucherTs` | ts/client/src/movement/voucher.ts:21-38 | the buffer filled through a moving offset holds prefix, id and amount modulo 2^64 |
| `Voucher.EncodersAgree` | ts/client/src/movement/voucher.ts:21-50 | both encoders sign the same bytes if and only if the id is shorter than 2^31 bytes |
| `ChallengeId.PreimageInjective` | src/protocol/core/challenge.rs:446-473 | main result: the hash input determines the joined fields if and only if none of them has a pipe |
| `ChallengeId.IdBindsExactly` | src/server/mpp.rs:180-189 | with the server's own realm on both sides, an issued id binds every field of its echo, up to absent and empty optionals, if and only if none of these fields has a pipe |
| `ChallengeId.Collides` | src/protocol/core/challenge.rs:463-472 | for any fields with a pipe, other fields with the same hash input |
| `ChallengeId.PreimageText` | src/protocol/core/challenge.rs:463-472 | the hash input written out, realm first, absent optionals empty |
| `ChallengeId.VerifiesMeans` | src/protocol/core/challenge.rs:254-334 | a challenge verifies exactly when its id is the encoded hash of its seven fields |
| `ChallengeId.AbsentIsEmpty` | src/protocol/core/challenge.rs:460-471 | an absent optional and an empty one have the same id |
| `ChallengeId.ConstantTimeEq` | src/protocol/core/challenge.rs:484-493 | the accumulating comparison is equality |
| `ChallengeFlow.ExtractsFirst` | src/protocol/core/headers.rs:68-74 | of comma-separated parts the first of the Payment scheme, in any case, is taken, trimmed; none exactly when there is none |
| `ChallengeFlow.CommasOfSplit` | src/protocol/core/headers.rs:68-74 | every header is such a list of parts |
| `ChallengeFlow.ParsesPart` | src/protocol/core/headers.rs:386-414 | token length, base64url, JSON and digest: what the part answers |
| `ChallengeFlow.CredentialRoundTrip` | src/protocol/core/headers.rs:386-423 | a printed credential, also between parts of other schemes, parses back exactly unless its token exceeds 16384 characters or its digest is malformed |
| `ChallengeFlow.IssuedParses` | src/protocol/methods/movement/mod.rs:133-183 | an issued charge or session challenge prints and parses back |
| `ChallengeFlow.IssuedIsAccepted` | src/server/mpp.rs:442-514 | main result: issued, printed, parsed, echoed, sent and parsed again, a challenge is accepted if and only if it is before its expiry, and the token is read if and only if it has at most 16384 characters |
| `ChallengeFlow.IssueMeans` | src/server/mpp.rs:474-514 | what an issued challenge says: it carries what it was asked for under the server's realm, verifies, and expires when told to or after 300 seconds |
| `ChallengeFlow.VerifyMeans` | src/server/mpp.rs:176-216 | accepted exactly when the id is that of the fields under the server's key and realm, and there is no expiry or one that reads and is not reached; else which refusal |
| `ChallengeFlow.DefaultLifetime` | src/protocol/methods/movement/mod.rs:147-161 | without an expiry of its own a challenge lives 300 seconds |
| `ChallengeFlow.AcceptedIsIssued` | src/server/mpp.rs:176-216 | unless the two hash inputs collide, and without pipes in the issued fields, whatever is accepted under an issued id carries the issued fields and is not expired |
| `Amounts.DollarExact` | src/server/amount.rs:67-143 | main result: dollar parsing succeeds if and only if the text denotes a whole number of base units in 1..2^128-1 with at most 38 decimals, and returns its canonical text |
| `Amounts.DollarOnDecimalText` | src/server/amount.rs:106-142 | what the converter answers on decimal text, errors included |
| `Amounts.DollarRefusals` | src/server/amount.rs:71-112 | nothing but a dot, nothing at all, and too many fraction digits |
| `Amounts.DollarOnOtherText` | src/server/amount.rs:77-101 | text that is no decimal numeral is refused as such |
| `Amounts.FractionFits` | src/server/amount.rs:125-134 | the fraction product never overflows |
| `Amounts.UnitsOnDecimalText` | src/protocol/intents/mod.rs:50-88 | padding and trimming compute the same number of base units |
| `Amounts.ConvertersAgree` | src/protocol/intents/mod.rs:50-88 | main result: whatever the arithmetic converter returns the padding one returns; on decimal text it returns exactly the payable answers of the padding one |
| `Amounts.UnitsOnAnyText` | src/protocol/intents/mod.rs:50-88 | what the padding converter answers on any text: nothing, no dot, one dot, two or more |
| `Amounts.PaddingAcceptsLetters` | src/protocol/intents/mod.rs:59-87 | off decimal text they part: without a dot the padding converter takes any text, the arithmetic one only digits |
| `RateLimiter.ProxyLimiter.Check` | examples/firecrawl-proxy/src/main.rs:61-80 | the answer and the entry left behind |
| `RateLimiter.ProxyLimiter.Cleanup` | examples/firecrawl-proxy/src/main.rs:83-88 | keeps exactly the entries whose window lasts, unchanged |
| `RateLimiter.VoiceLimiter.CheckRateLimit` | examples/voice-call/server/src/main.rs:482-495 | the answer and the entry left behind |
| `RateLimiter.VoiceLimiter.SweepStale` | examples/voice-call/server/src/main.rs:332-336 | keeps exactly the entries younger than 120 seconds, unchanged |
| `RateLimiter.EvictionInvisibleExactly` | examples/firecrawl-proxy/src/main.rs:83-88 | for both limiters: wherever evictions fall in a trace the answers stay the same, if and only if the maximum is at least one |
| `RateLimiter.CountersAgree` | examples/voice-call/server/src/main.rs:482-495 | the counter that stops and the counter that grows answer every trace alike, each with its own evictions |
| `RateLimiter.AnswersExactly` | examples/firecrawl-proxy/src/main.rs:61-80 | main result: every answer of either limiter from the history alone: admitted if and only if among the first `max` requests of its window |
| `RateLimiter.RefusedLeavesNoTrace` | examples/firecrawl-proxy/src/main.rs:74-79 | leaving a refused request out of a trace changes no other answer |
| `RateLimiter.RateBound` | examples/firecrawl-proxy/src/main.rs:61-80 | main result: a closed interval no longer than the window admits at most 2 * max - 1 requests of one address, over every trace, for both limiters |
| `RateLimiter.VoiceRateBound` | examples/voice-call/server/src/main.rs:477-495 | at most 119 requests of one address within 60 seconds |
| `RateLimiter.RateBoundTight` | examples/firecrawl-proxy/src/main.rs:61-80 | a trace that attains the bound, for every maximum and window |
| `TokenMeter.ChatServer.Chat` | examples/rust/src/sse_server.rs:283-366 | the session is created on first sight; a voucher is taken exactly when it is larger than the last and signed by the session's 32-byte key, and streams exactly when it pays a token; else the session stays |
| `TokenMeter.AcceptMeans` | examples/rust/src/sse_server.rs:298-366 | the same about the decision: what changes, what is answered, and which refusal is given |
| `TokenMeter.TokensFit` | examples/rust/src/sse_server.rs:340-341 | a payment is the cost of its whole tokens and less than a token left over |
| `TokenMeter.ChatServer.SettleLanded` | examples/rust/src/sse_server.rs:390-399 | a settle that succeeded overwrites the settled amount |
| `TokenMeter.ChatServer.StreamEnded` | examples/rust/src/sse_server.rs:422-432 | the tokens a stream did not send are taken back |
| `TokenMeter.ChatServer.CloseChannel` | examples/rust/src/sse_server.rs:463-522 | the amount, signature and refund of a close |
| `TokenMeter.RunKeepsBooks` | examples/rust/src/sse_server.rs:339-432 | main result: in every interleaving of vouchers, tokens, stream ends and settles, delivered tokens are those sent and those in flight, the highest amount is their price plus what was given back plus dust, and every settled amount is signed and not above it |
| `TokenMeter.StepBalanced` | examples/rust/src/sse_server.rs:422-432 | one step keeps the sums: nothing wraps and no correction saturates |
| `TokenMeter.CloseExact` | examples/rust/src/sse_server.rs:486-520 | a close asks for the price of the delivered tokens in true arithmetic and refunds the rest, never less than what was sent and exactly that with no stream in flight |
| `TokenMeter.ClosePairVerifies` | examples/rust/src/sse_server.rs:502-512 | the amount and signature of a close verify together if and only if nothing is refunded |
| `TokenMeter.SettlesEveryFifth` | examples/rust/src/sse_server.rs:365-371 | the comparison with the settled amount never stops a settle |
| `SseClient.ReadEvents` | examples/rust/src/sse_client.rs:189-214 | main result: the buffer loop yields the left-to-right split of the whole text, wherever it was cut into chunks |
| `SseClient.SplitResumes` | examples/rust/src/sse_client.rs:199-201 | splitting resumes from the unfinished rest |
| `SseClient.SplitExactly` | examples/rust/src/sse_client.rs:199-201 | the split is exactly the inverse of the server's framing by blank lines |
| `SseClient.PayUntilExhausted` | examples/rust/src/sse_client.rs:154-187 | accepted payments stay within the deposit; they stop when the next would exceed it, at a refusal, or at a total that has wrapped at 2^64 |

## Left out

- HTTP and REST clients, web servers, signalling, user interfaces: their results enter as inputs.
- ed25519, SHA-2 and SHA-3, HMAC, JSON and RFC 3339 text: abstract, as stated under Conventions.
- The Move contract is not in the repository; only the growth of on-chain deposits is assumed.
- `InMemoryChannelStore::insert` and `wait_for_update`: a seeding helper and a polling loop.
- Charge verification over transaction JSON, error text, MCP metadata, network tables, discovery: lookups.
- Building the request JSON of a challenge and decoding it again; only its validity enters the header parser.
- The dispatch of `verify_session` to the four handlers; the handlers are modelled one by one.
- The TypeScript session provider: the same running total as the Rust client, over unbounded integers.
- Voice-call hosts and calls: loosely kept flags.
- SessionClient.SessionProvider.Pay: one call at a time; two concurrent openings under one key would leave the client only the later entry.
- SessionClient.EntryKey: lower-cases ASCII letters only, where the source lower-cases Unicode.
- JointSession.NeverAboveSigned: takes the client's total to stay below 2^64, where the source adds without a check.
- RateLimiter.CountersAgree: traces shorter than 2^64 events, so that the growing 64-bit counter does not wrap.
- RateLimiter.RateBound: takes a clock that does not run back along the trace; the voice server reads its clock before it locks the entry.
- TokenMeter.RunKeepsBooks: a price of zero, on which the source divides by zero, is outside it; the fixed script of tokens is not modelled, a stream may end at any point.
- SseClient.ReadEvents: works on characters; a multi-byte character cut by a chunk border is replaced by the source, which is not modelled. Reading the JSON of an event is left out.
- Base64Url.DecodeLoop: characters are single code units; surrogate pairs of UTF-16 are not modelled.
- Amounts.ParseUnits and Amounts.ParseDollarAmount: the number of decimals is any natural number, where the source has 8 and 32 bits.
