# A verified model of the electronic pollbook

The pollbook checks voters in through two services and any number of client
devices. A kiosk has a voter's ID confirmed by the **Voter ID service**, and
then asks the **check-in service** to start a round for the voter (Phase 1): the
voter goes from ELIGIBLE to PENDING, a one-shot timer starts, and the kiosk gets
a random ticket. A trusted device redeems the ticket with the voter's PIN
(Phase 2): the voter goes from PENDING to CHECKED_IN. A round that is not
redeemed in time is reverted by its timer. Every message carries signatures over
its re-serialised body, travels as a length line and a payload line, and every
ticket is also appended to a file. The processes are configured by an INI file
behind a lazily constructed singleton.

This project models that behaviour in Dafny and proves what holds in every run.

## How the model is laid out

| file | what it models |
|---|---|
| `text.dfy`, `base64.dfy` | decimal and hexadecimal numerals, `std::stoul`, `std::getline`, Base64 |
| `messages.dfy`, `documents.dfy` | the six signed message types as JSON trees, and the documents that they are spelled as |
| `freshness.dfy` | the timestamp test in 64-bit machine arithmetic |
| `ticketfile.dfy`, `roll.dfy` | the ticket file, the two voter rolls |
| `rounds.dfy` | voter status, timers and timeout handlers as one machine |
| `protocol.dfy` | the callbacks of both services as step functions, and runs of the whole system |
| `effects.dfy`, `invariants.dfy`, `provenance.dfy`, `timing.dfy` | what one step does, and what every step keeps |
| `answers.dfy` | what every message is answered with, told from the world that it finds |
| `theorems.dfy`, `deletion.dfy`, `projection.dfy`, `honest.dfy` | results over all runs |
| `visits.dfy` | whole visits from the first handshake on |
| `scripts.dfy`, `replay.dfy`, `tickets.dfy` | runs that show what the code does not rule out, with the exact conditions under which it does |
| `checkinservice.dfy`, `voteridservice.dfy` | the two service objects, their loops and in-place updates, proved against the step functions |
| `framing.dfy` | the length-line/payload-line reader over a chunked stream |
| `ini.dfy`, `initext.dfy`, `inifile.dfy` | the INI format as functions, what each kind of line of a text means, and the parser and printer object |
| `singleton.dfy` | the compare-and-swap initialisation of the configuration |
| `client.dfy`, `exchange.dfy` | the client's callback chain around one promise, and what its runs come to |

A run (`Protocol.Exec`) is any finite sequence of steps from any start
(`Protocol.Initial`). A step is one callback of a service's event loop (a
handshake, a message, the expiry of a timer, a queued handler), a signature that
some client makes over any body with any key that is not a service's, or the
passing of time. Nothing is assumed about clients: any message may arrive at any
connection on which a read is armed. Signatures are ideal: a set of triples of
key, body and bytes, and a check succeeds exactly when the triple is in the set.
Each service runs its callbacks on one thread, so a callback is one step. The
timer is modelled as asio defines it: a handler that has already been queued when
its timer is cancelled still runs; cancelling or destroying a timer aborts a
handler that is still waiting. The timeout, configured in minutes, and the
freshness interval are both in milliseconds. The log of a run (ID confirmed, accepted,
approved, reverted) is written by the steps and decides nothing.

Three points where the code is not what one might expect. The original README
speaks of a 4-byte length prefix (README.md, lines 257-258); the code sends a
decimal line, and the reader is modelled as coded. Tickets are never erased from the ticket map, so a ticket is
single-use per voter and run, not per round: `Tickets.OldTicketPossible` gives the
run in which the ticket of a round that timed out redeems a later round of the same
voter, and `Tickets.OnlyOwnIffNoRevert` says exactly when that cannot happen. And the freshness test is exact
only away from the two ends of the 64-bit range (`Freshness.FreshIsExact`).

## Model

| member | source | states |
|---|---|---|
| Rounds.BeginKeepsValid | src/checkin_service.cpp:679-695 | starting a round for an eligible voter keeps the timer invariant: an entry exactly for the pending voters, each with its own live handler, and no live handler without an entry except fired ones of checked-in voters; no other voter's timer changes |
| Rounds.FinishKeepsValid | src/checkin_service.cpp:338-391 | redeeming a round with a timer keeps the invariant, moves exactly that voter from PENDING to CHECKED_IN and takes out exactly that timer, also when the handler had already been queued |
| Rounds.ExpireKeepsValid | src/checkin_service.cpp:691-695 | queueing the handler of an expired timer keeps the invariant |
| Rounds.RunHandlerEffect | src/checkin_service.cpp:691-707 | a queued handler either ends the round it was started for, PENDING to ELIGIBLE, or changes no status and no timer |
| Rounds.OneLiveHandler | src/checkin_service.cpp:679-707 | a pending voter has exactly one live handler, that of its timer entry; any other live handler has fired and belongs to a checked-in voter |
| Rounds.BeginReplaces | src/checkin_service.cpp:679-695 | if a voter did have a timer, its handler would be aborted while it waits and kept when it is queued, and the new timer would take the entry |
| Theorems.InvAlways | src/checkin_service.cpp:78-826 | the joint invariant of keys, tickets, voters, signatures, events and times holds after every run |
| Theorems.PendingHasOneTimeout | src/checkin_service.cpp:616-625 | in every reachable state a voter has a timer entry exactly when PENDING, and then exactly one live handler, whose expiry is the entry's: no pending voter is stranded |
| Theorems.NoStaleTimeout | src/checkin_service.cpp:697-707 | in every reachable state a handler that runs reverts the voter of its own, expired round or changes neither statuses nor timers |
| Theorems.Conservation | src/checkin_service.cpp:369-406 | in every run each voter is approved once if CHECKED_IN and never otherwise, and acceptances equal reverts plus one for a round that is open or was redeemed |
| Theorems.CheckedInForever | src/checkin_service.cpp:369-375 | CHECKED_IN is never left, whatever steps follow |
| Theorems.ApprovalChecksIn | src/checkin_service.cpp:369-406 | a message is answered with an approved ticket response exactly when that step moves the voter named in it from PENDING to CHECKED_IN |
| Theorems.CheckedInHasProvenance | src/checkin_service.cpp:220-406 | behind every CHECKED_IN voter lie, in this order, an ID confirmation with names that match the records, an acceptance of a request signed under the kiosk's pinned key that carries that confirmation, and an approval of a request signed under a trusted client's pinned key with the voter's PIN and a ticket recorded for the voter |
| Theorems.ApprovedInWindow | src/checkin_service.cpp:338-367 | every approval happens between the voter's latest acceptance and one timeout later on the steady clock |
| Theorems.LowerBoundHolds | src/checkin_service.cpp:350-355 | in every reachable state the lower end of the time window rejects nothing |
| Theorems.TwoAcceptances | src/checkin_service.cpp:745-754 | two acceptances of one request body are at least a timeout apart on the steady clock and at most two freshness intervals apart on the wall clock |
| Theorems.NeverAcceptedTwice | src/checkin_service.cpp:592-625 | if twice the freshness interval is less than the timeout and the clocks advance together, no request body is ever accepted twice |
| Replay.ReplayPossible | src/checkin_service.cpp:592-625 | the bound is exact: otherwise, from every reachable state in which a kiosk could check a voter in, there is a run that accepts one request, times out and accepts it again |
| Theorems.KeysPinned | src/checkin_service.cpp:90-136 | in every run verifiers and public keys are one map that only grows and never changes an entry, a recorded client is trusted exactly when its id is listed, and whoever sends a message that is dispatched has a verifier, so the lazy key load never happens |
| Visits.HandshakeConnects | src/checkin_service.cpp:78-155 | in every reachable state a handshake with a key binds the connection to the client, types the client as trusted exactly if it is listed, pins the key if none is pinned, and arms a read; the device is connected afterwards exactly if no other key was pinned for it |
| Visits.HandshakeWithoutKey | src/checkin_service.cpp:78-155 | a handshake without a key names the client and no more, one without a certificate names nobody, and both arm a read |
| Visits.IdHandshakeIdentifies | src/voter_id_service.cpp:58-105 | a handshake with the ID service pins the key if none is recorded; it can then identify a voter for the device exactly if no other key is recorded and the voter is on its roll |
| Visits.StaysConnectedWhileQuiet | src/checkin_service.cpp:444-524 | a connection stays usable, whatever anybody does on others, until a new handshake on it or a message after which nothing more is read |
| Theorems.TicketMapIsFile | src/checkin_service.cpp:538-575 | in every run the ticket map agrees with the last-wins contents of the ticket file, and a Phase 2 message makes them equal |
| Projection.OwnStepsDetermine | src/checkin_service.cpp:577-707 | the steps of one voter determine the voter's state: taking out of a run every message and every timer step that is about somebody else leaves the voter the same status, expiry, state of the timeout handler, tickets on file and history, and leaves every other voter untouched |
| Deletion.RejectedMessagesLeaveNoTrace | src/checkin_service.cpp:249-337 | deleting every rejected message from a run gives the same statuses, timers, handlers, ticket file and log |
| Honest.HonestRunCompletes | src/pollbook_client.cpp:259-429 | in every run that contains the six steps of a visit (ID request signed and sent, check-in request dated anew, signed and sent, ticket request signed and sent) in their order, with any steps of anybody before, between and after them: if each message is fresh when it arrives, the devices are connected then, the voter is on both rolls, eligible, and Phase 2 falls into the window, then the kiosk is sent the ticket, the voter is checked in for good, and the trusted device is sent the secret issued with the ticket unless another device redeemed the round first |
| Honest.Phase1Completes | src/pollbook_client.cpp:169-312 | Phase 1 of such a run alone: the statement and the request that the client builds at two clock readings are confirmed and accepted, the voter is then pending with the ticket on file, and the signed reply brings the kiosk that ticket under the voter's names |
| Honest.SurvivesRun | src/checkin_service.cpp:679-707 | whatever anybody does, an open round stays open with its expiry or is redeemed, until its own timeout runs, and that is not before the expiry |
| Visits.VisitCompletes | src/pollbook_client.cpp:169-479 | the honest visit from the start of the services on: in every run that contains the three handshakes and the six steps of the visit in their order, with any steps of anybody around them that leave the two connections alone, a voter on both rolls is checked in and the devices get ticket and secret, if nobody uses the devices' client ids with other keys and the messages come in time |
| Visits.VisitPossible | src/checkin_service.cpp:78-442 | and there is such a run: from every reachable state in which the voter is eligible and the client ids are free, three handshakes, Phase 1 and Phase 2 check the voter in and send the secret |
| Tickets.RedeemsIffFiled | src/checkin_service.cpp:256-406 | in every reachable state in which a voter's round is open, a trusted device with the PIN redeems it with a ticket if and only if the ticket is on file under the voter, and gets the secret on file with it, whichever round it was issued for |
| Tickets.OnlyFiledTicketsRedeem | src/checkin_service.cpp:256-406 | any step of anybody that checks a voter in is a message with a ticket on file under that voter |
| Tickets.OnlyOwnIffAlone | src/checkin_service.cpp:256-262 | only the round's own ticket redeems it if and only if no other ticket is on file under the voter |
| Tickets.OneTicketUntilRevert | src/checkin_service.cpp:645-649 | if the ticket file had nothing under the voter at the start and no round of the voter was reverted, the only ticket on file under the voter is that of the latest acceptance |
| Tickets.OnlyOwnIffNoRevert | src/checkin_service.cpp:256-262 | with such a file and distinct random tickets, a round can be redeemed by its own ticket only, if and only if no earlier round of the voter was reverted |
| Tickets.OldTicketPossible | src/checkin_service.cpp:256-262 | single use per round is false of the code: from every reachable state in which a kiosk could check a voter in and a trusted device is connected there is a run that issues a ticket, times out, issues a different ticket, and redeems the second round with the first ticket and its secret |
| Effects.MessageEffect | src/checkin_service.cpp:444-524 | every message is accepted by Phase 1, approved by Phase 2, or leaves rounds and ticket file alone, and which of these happened can be read off the state before |
| Effects.AcceptanceHappens | src/checkin_service.cpp:577-653 | a message that meets the Phase 1 conditions is accepted, with the new round, ticket and file line, and the signed reply carries the ticket |
| Effects.ApprovalHappens | src/checkin_service.cpp:220-406 | a message that meets the Phase 2 conditions is approved and the signed reply carries the ticket's own secret |
| Answers.TicketAnswered | src/checkin_service.cpp:220-442 | in every reachable state a ticket request with good sender, ticket, signature and timestamp gets exactly one signed reply, about the ticket's voter with the names on the roll and the PIN that was sent; it approves exactly if the PIN is the voter's and the voter's round is in its window, and then brings the ticket's secret and checks the voter in; otherwise it brings no secret and changes nothing; either way the connection is not read again |
| Answers.CheckinAnswered | src/checkin_service.cpp:577-677 | in every reachable state a check-in request that can be read gets exactly one signed reply, which repeats its client, names and voter and is dated now; it approves exactly if client id, both signatures, voter, timestamp and status are good, and then brings the new ticket, which is recorded with its voter and secret, and the round begins; otherwise it brings no ticket and changes nothing; either way the connection is read again |
| Answers.OthersIgnored | src/checkin_service.cpp:444-524 | every other message leads to no signature and changes neither rounds, file, keys nor log, and the connection is not read again |
| Answers.RefusalsGiveNothing | src/checkin_service.cpp:316-419 | in every run, no refusal that the check-in service signed carries a secret or a ticket |
| Answers.KeyLoadedOnDemand | src/checkin_service.cpp:606-614 | in any state that has typed a client without a key, its request loads the key of the key folder, and without one there it is not answered |
| Answers.StatementSignedIff | src/voter_id_service.cpp:276-343 | the ID service signs a statement on a voter if and only if the request is fresh, the id in front of its data is the voter's and not the reserved one, the names are on the voter's record, and the client's signature verifies under the key at hand; otherwise it signs nothing |
| Answers.NamesOnRecord | src/voter_id_service.cpp:252-274 | a voter has at least eight columns on record, and last, first and middle name agree with the second, third and fourth, letter by letter whatever the case |
| Answers.NamesFolded | src/voter_id_service.cpp:252-259 | two names are equal up to case exactly if they have the same length and in each place the same character or the same letter of the two alphabets |
| Provenance.SignaturesKept | src/voter_id_service.cpp:326-343 | every step keeps: each signature under a service's key is one that the log accounts for, and signatures only accumulate |
| Provenance.EventsKept | src/checkin_service.cpp:709-759 | every step keeps: each logged acceptance and approval has its signatures, pinned keys, PIN and earlier ticket |
| Timing.TimeKept | src/checkin_service.cpp:679-707 | every step keeps: acceptances of one voter are a timeout apart, and a reverted round had run out |
| CheckinService.CheckinService.Dispatch | src/checkin_service.cpp:762-772 | each callback of the service object takes its state exactly where the protocol step takes it, and the reply is what gets signed |
| CheckinService.CheckinService.OnPayload | src/checkin_service.cpp:444-524 | the payload callback, given any JSON or none, updates the object as the step function says and returns its reply |
| CheckinService.CheckinService.HandleCheckinRequest | src/checkin_service.cpp:577-677 | the object and the reply after `handle_checkin_request`, for every request and every state |
| CheckinService.CheckinService.HandleTrustedClient | src/checkin_service.cpp:220-442 | the object and the reply after `handle_trusted_client`, for every message and every state |
| CheckinService.CheckinService.Confirm | src/checkin_service.cpp:303-406 | the PIN test, the timer window and the status change: the rounds and the answer in all three outcomes |
| CheckinService.CheckinService.TakeTimer | src/checkin_service.cpp:338-367 | the timer entry is taken out exactly when it exists and the time is within its window |
| CheckinService.CheckinService.TryBegin | src/checkin_service.cpp:609-640 | a round starts exactly when the request validates and the voter is eligible; otherwise nothing changes |
| CheckinService.CheckinService.ValidateClientRequest | src/checkin_service.cpp:709-759 | true exactly when both signatures verify, the claimed voter is the confirmed one and the timestamp is fresh |
| CheckinService.CheckinService.StartTimer | src/checkin_service.cpp:679-695 | a new timer takes the voter's entry, its handler waits, and a handler of a replaced timer is aborted |
| CheckinService.CheckinService.HandleVerificationTimeout | src/checkin_service.cpp:697-707 | the entry goes and a pending voter becomes eligible |
| CheckinService.CheckinService.OnHandler | src/checkin_service.cpp:690-695 | a fired handler runs the timeout, an aborted one does nothing |
| CheckinService.CheckinService.ReadFromCsv | src/checkin_service.cpp:538-565 | the line-by-line loop merges the file's last-wins contents into the ticket map |
| CheckinService.CheckinService.WriteToCsv | src/checkin_service.cpp:567-575 | one ticket line is appended to the file and nothing else changes |
| CheckinService.CheckinService.HandleAccept | src/checkin_service.cpp:78-155 | the first key of a client id is kept, a different one later is ignored, the client is typed once, and a read is armed |
| CheckinService.CheckinService.EnsureVerifier | src/checkin_service.cpp:774-789 | a missing verifier is loaded from the key folder; it fails exactly when there is none there |
| CheckinService.GenerateSecret | src/checkin_service.cpp:526-536 | the loop writes every byte as two hexadecimal digits, in order |
| CheckinService.FindVoterRow | src/checkin_service.cpp:791-826 | the loop finds the row that the specification of the roll names, or nothing |
| Roll.VoterInText | src/checkin_service.cpp:791-826 | in a roll text of any lines, the voter's row is given by the first line of nine comma-separated columns whose first is the decimal id: the PIN is its second column, last, first and middle name are the third, fourth and fifth; without such a line there is no row |
| Roll.RowOfColumns | src/checkin_service.cpp:803-818 | a line made of eight columns without commas and a last one that is not empty is read as exactly these columns |
| Roll.ColumnsOfRow | src/checkin_service.cpp:803-818 | and only such a line is read |
| CheckinService.LoadVoterList | src/checkin_service.cpp:828-845 | exactly the voters of the list are in the table, all eligible; it throws exactly when the header is wrong or a first column is not a number |
| CheckinService.FirstColumnIs | src/checkin_service.cpp:836-843 | the first column is what stands in front of the first comma, or the whole line; a decimal id there is that voter's and nobody else's |
| CheckinService.RequestsReadBack | src/checkin_service.cpp:495-508 | what a client sends is read back as it was, so the body whose signature is checked is the body that was signed |
| Roll.FindInStopsAtFirst | src/checkin_service.cpp:799-825 | the search stops at the first complete row whose first column is the decimal id, and gives nothing exactly when there is none |
| VoterIdService.VoterIdService.HandleValidationRequest | src/voter_id_service.cpp:276-343 | the object, the statement that is signed and the log after any request, in the order of the handler's checks |
| VoterIdService.VoterIdService.ValidateVoterName | src/voter_id_service.cpp:252-274 | true exactly when the voter has a full record and all three names match it up to case |
| VoterIdService.VoterIdService.HandleAccept | src/voter_id_service.cpp:58-105 | the first key of a client id is kept |
| VoterIdService.LoadVoterData | src/voter_id_service.cpp:211-249 | exactly the voters with a line of eight or more fields and a numeric id are loaded, each with the fields of its last such line |
| VoterIdService.SplitFields | src/voter_id_service.cpp:224-230 | the comma-separated fields of a line, without an empty one at the end |
| VoterIdService.FieldsAre | src/voter_id_service.cpp:224-230 | a line made of comma-free fields, with or without a comma behind a last one that is not empty, is split into exactly these |
| VoterIdService.RecordOf | src/voter_id_service.cpp:224-245 | a line is a record of a voter exactly if it has eight fields or more and the first is read as the voter's number |
| Roll.MatchIdOfPrefix | src/voter_id_service.cpp:345-349 | the id read from the front of the ID data is the one the client put there |
| Messages.VoterIdRequestRoundTrip | include/epollbook/voter_id_request.hpp:56-104 | reading back a written ID request gives the same request |
| Messages.VerifiedVoterIdRoundTrip | include/epollbook/voter_id_request.hpp:141-155 | reading back a written ID statement gives the same statement |
| Messages.CheckinRequestRoundTrip | include/epollbook/checkin_request.hpp:68-117 | reading back a written check-in request, with the two nested messages, gives the same request |
| Messages.CheckinResponseRoundTrip | include/epollbook/checkin_request.hpp:170-225 | reading back a written check-in response gives the same response |
| Messages.TicketRequestRoundTrip | include/epollbook/trusted_client_request.hpp:43-95 | reading back a written ticket request gives the same request |
| Messages.TicketResponseRoundTrip | include/epollbook/trusted_client_request.hpp:137-182 | reading back a written ticket response gives the same response |
| Messages.BodyJsonInjective | src/checkin_service.cpp:711-732 | the signed bodies of all six kinds serialise injectively, so a signature on one body fits no other body of any kind |
| Messages.DocumentInjective | include/epollbook/checkin_request.hpp:68-225 | the same for the documents with their keys spelled as they are sent: two signed documents are equal only if they are of one kind and agree in every field |
| Documents.VoterIdBodySpelled | include/epollbook/voter_id_request.hpp:56-66 | which spelled member of the ID request's body carries which field |
| Documents.VoterIdRequestSpelled | include/epollbook/voter_id_request.hpp:81-87 | the same for the ID request around it |
| Documents.StatementSpelled | src/voter_id_service.cpp:324-333 | the same for what the ID service signs |
| Documents.VerifiedVoterIdSpelled | include/epollbook/voter_id_request.hpp:141-148 | the same for the ID service's statement |
| Documents.CheckinBodySpelled | include/epollbook/checkin_request.hpp:68-80 | the same for the check-in request's body |
| Documents.CheckinRequestSpelled | include/epollbook/checkin_request.hpp:95-101 | the same for the check-in request |
| Documents.CheckinReplyBodySpelled | include/epollbook/checkin_request.hpp:170-183 | the same for the body of the reply to it |
| Documents.CheckinResponseSpelled | include/epollbook/checkin_request.hpp:200-206 | the same for the reply |
| Documents.TicketBodySpelled | include/epollbook/trusted_client_request.hpp:43-52 | the same for the ticket request's body |
| Documents.TicketRequestSpelled | include/epollbook/trusted_client_request.hpp:65-71 | the same for the ticket request |
| Documents.TicketReplyBodySpelled | include/epollbook/trusted_client_request.hpp:137-150 | the same for the body of the reply to it |
| Documents.TicketResponseSpelled | include/epollbook/trusted_client_request.hpp:159-166 | the same for the reply |
| Documents.VoterIdRequestRead | include/epollbook/voter_id_request.hpp:89-104 | any document is read as a given ID request if and only if every member is there, of its kind, and holds the request's field, numbers being cut to their width |
| Documents.VerifiedVoterIdRead | include/epollbook/voter_id_request.hpp:149-155 | the same for the ID service's statement |
| Documents.CheckinRequestRead | include/epollbook/checkin_request.hpp:103-117 | the same for a check-in request, with the messages nested in it |
| Documents.CheckinResponseRead | include/epollbook/checkin_request.hpp:208-223 | the same for the reply to it |
| Documents.TicketRequestRead | include/epollbook/trusted_client_request.hpp:72-95 | the same for a ticket request |
| Documents.TicketResponseRead | include/epollbook/trusted_client_request.hpp:168-182 | the same for the reply to it |
| Base64.RoundTrip | include/epollbook/openssl/base64.hpp:13-50 | decoding an encoding gives the bytes back, for every length and padding (section 4 of RFC 4648) |
| Base64.TestVectors | include/epollbook/openssl/base64.hpp:13-31 | the test vectors of section 10 of RFC 4648 |
| Base64.Alphabet | include/epollbook/openssl/base64.hpp:13-31 | the alphabet of section 4 of RFC 4648, in its order |
| Base64.DecodableIff | include/epollbook/openssl/base64.hpp:33-50 | exactly the texts of whole groups of the alphabet, the last with at most two pad characters, can be decoded |
| Freshness.FreshIsExact | src/checkin_service.cpp:289-301 | the machine-arithmetic test means exactly that timestamp and clock are at most the interval apart, for all timestamps, if and only if the clock is at least the interval away from both ends of the 64-bit range |
| Freshness.FreshMeans | src/checkin_service.cpp:289-301 | for any two readings: a gap below half of the 64-bit range is fresh if it is at most the interval, a larger one if what is missing to the whole range is |
| Freshness.FreshTwice | src/checkin_service.cpp:745-754 | two sane clock readings at which one timestamp is fresh are at most two intervals apart |
| TicketFile.ApplyAllMerges | src/checkin_service.cpp:538-565 | reading the file into a map that has entries adds the file's last-wins contents |
| TicketFile.ParseLineOfLine | src/checkin_service.cpp:547-556 | hexadecimal tickets and secrets and decimal ids survive the comma-separated line |
| TicketFile.ContentsAppend | src/checkin_service.cpp:567-575 | appending an issued ticket to a file adds exactly that ticket to its contents |
| TicketFile.TicketsInText | src/checkin_service.cpp:538-565 | in a file of any lines, a ticket is on file exactly if some line is that ticket, a number and a secret with commas between them, and then with the voter and secret of the last such line; other lines are passed over |
| Text.HexInjective | src/checkin_service.cpp:526-536 | different byte strings have different hexadecimal forms |
| Text.HexDigitsAt | src/checkin_service.cpp:526-536 | byte i becomes the two lower-case hexadecimal digits at 2i and 2i+1, the high one first |
| Text.ParseUlongOfDec | src/checkin_service.cpp:201-204 | `std::stoul` reads back what `std::to_string` wrote, in front of any text that is not a digit |
| Text.DecIsNumeral | src/checkin_service.cpp:799-803 | `std::to_string` writes the one numeral without a zero in front that has the number's value |
| Text.StoulReads | src/checkin_service.cpp:201-204 | `std::stoul` on white space, a sign or none, digits, and anything that does not go on with a digit: the value, its negation modulo 2^64, or out of range |
| Text.StoulRejects | src/checkin_service.cpp:201-204 | without a digit behind white space and sign there is no number |
| Text.LinesAre | src/checkin_service.cpp:799-803 | in a text of lines that each end in a line feed, which the last may lack if it is not empty, exactly these lines are visited |
| Text.LinesOf | src/checkin_service.cpp:799-803 | and every text consists of the lines that are visited |
| Framing.ChunksDoNotMatter | src/checkin_service.cpp:185-218 | for every byte stream, well formed or not, the state of the reader does not depend on how the stream was cut into chunks |
| Framing.EveryFrameDelivered | src/pollbook_client.cpp:296-299 | for every list of line-feed-free payloads, every cut of their frames and every handler that starts a new read after each of them, exactly that list is delivered and the reader waits for more |
| Framing.NothingAfterBadFrame | src/checkin_service.cpp:444-524 | a frame whose length line disagrees is not delivered, and nothing after it is |
| Framing.LastMessageOfConnection | src/checkin_service.cpp:488-493 | the first message whose handler does not start a new read, such as a trusted client's first one, is delivered and is the last one that the connection ever delivers |
| Framing.Connection.Receive | src/checkin_service.cpp:185-218 | the object's reads and callbacks on one chunk do what the stream function says |
| Framing.Connection.Callback | src/checkin_service.cpp:455-470 | a size line and a payload line move the connection as specified, and after a message the handler's decision to read again is followed |
| Ini.UncommentUndoesEscape | include/epollbook/config/inifile-cpp/inicpp.h:423-449 | removing comments from an escaped line gives back the line, for every line, through both prefix passes |
| IniText.UncommentLine | include/epollbook/config/inifile-cpp/inicpp.h:423-449 | an escaped line followed by an unescaped prefix and anything loses exactly the comment and the escapes |
| IniText.BlankLineSkipped | include/epollbook/config/inifile-cpp/inicpp.h:594-604 | a line of white space, with or without a comment, put in front of, between or behind any lines of any text leaves what is read as it is, and a mistake further down is reported one line later |
| IniText.SectionLine | include/epollbook/config/inifile-cpp/inicpp.h:606-634 | a name in brackets opens its section, which keeps the fields it has, ends the field that was open, and makes what stands behind the bracket ignored; without a name the line is rejected |
| IniText.UnclosedLine | include/epollbook/config/inifile-cpp/inicpp.h:608-617 | a bracket that is not closed is rejected with its line number and what had been read |
| IniText.FieldLine | include/epollbook/config/inifile-cpp/inicpp.h:647-677 | whatever white space stands around name, separator and value, the field of the open section has the value in place of an earlier one, and is the one that is open; everything else stays |
| IniText.ContinuationLine | include/epollbook/config/inifile-cpp/inicpp.h:649-655 | a line that is indented by any spaces or tabs is added to the value of the open field after a line feed |
| IniText.MistakenLine | include/epollbook/config/inifile-cpp/inicpp.h:637-666 | any other text without a section, or without a separator when it continues no field, is rejected with its line number and what had been read |
| IniText.EveryLine | include/epollbook/config/inifile-cpp/inicpp.h:594-680 | every line, whatever it holds, is of the form that these results are about: white space, an escaped text that is empty, a section, an unclosed bracket or something else, white space, and maybe a comment |
| IniText.FirstMistakeStands | include/epollbook/config/inifile-cpp/inicpp.h:594-680 | nothing that follows the first mistake changes the report or what was read |
| IniText.EndOfText | include/epollbook/config/inifile-cpp/inicpp.h:586-600 | an empty text is an empty file, and a line feed at the end of any text changes nothing |
| Ini.DecodedIsPrintable | include/epollbook/config/inifile-cpp/inicpp.h:586-680 | whatever text the parser accepts, the file it builds is printable: names, fields and continuation lines all have a form that can be read back |
| Ini.ReadBackIffPrintable | include/epollbook/config/inifile-cpp/inicpp.h:700-719 | in whatever order its sections and fields are printed, a file is read back from its own text if and only if it is printable |
| Ini.PrintLines | include/epollbook/config/inifile-cpp/inicpp.h:700-719 | a printable file is written as one line per section and field and an indented line for each further line of a value, each with its comment prefixes escaped |
| Ini.DecodeEncodeDecode | include/epollbook/config/inifile-cpp/inicpp.h:586-719 | for every text that is accepted, decoding the encoding of the decoded file gives that file again |
| IniFile.IniFile.Decode | include/epollbook/config/inifile-cpp/inicpp.h:586-680 | the parser's loop leaves the object with the sections that the format gives, or with what was read before the line it reports as wrong and why |
| IniFile.IniFile.DecodeLine | include/epollbook/config/inifile-cpp/inicpp.h:603-679 | one line opens a section, sets a field, continues a value, is skipped or is rejected, as specified |
| IniFile.IniFile.Encode | include/epollbook/config/inifile-cpp/inicpp.h:700-719 | the nested loops print exactly the object's sections and fields, each once and in ascending order, and the text reads back as these sections if and only if they are printable |
| IniFile.LessIs | include/epollbook/config/inifile-cpp/inicpp.h:700-719 | the order in which it prints: the first place at which two names differ decides, and a name comes after its own beginnings |
| IniFile.TrimInPlace | include/epollbook/config/inifile-cpp/inicpp.h:41-56 | white space is cut from both ends and from nowhere else |
| IniFile.EraseComment | include/epollbook/config/inifile-cpp/inicpp.h:423-443 | the in-place recursion removes escapes and the comment as specified, and ends because what lies after the start position gets shorter |
| IniFile.EraseComments | include/epollbook/config/inifile-cpp/inicpp.h:445-449 | both prefix passes, in order |
| IniFile.FindCommentPrefix | include/epollbook/config/inifile-cpp/inicpp.h:453-477 | finds the prefix that starts at a position, if and only if one does |
| IniFile.WriteEscaped | include/epollbook/config/inifile-cpp/inicpp.h:479-498 | the loop writes every character, comment prefixes escaped and line feeds indented |
| Singleton.ConstructedOnce | src/config/config.cpp:55-73 | in every interleaving of any threads the configuration is constructed at most once, and every call that has returned has seen it initialised and has that one object |
| Singleton.NeverReplaced | src/config/config.cpp:62-73 | the instance, once there, is never replaced |
| Singleton.EveryCallCanReturn | src/config/config.cpp:55-73 | from every reachable state in which the constructor has not thrown, there is a schedule of at most seven operations after which a given call under way has returned from its own function |
| Singleton.CallBegins | src/config/config.cpp:55-73 | `initialize` begins with the compare-and-exchange, `getInstance` with the load |
| Singleton.ThrowBlocksForever | src/config/config.cpp:62-73 | once the constructor has thrown, the flag stays INITIALIZING, nothing is ever constructed, no call of any thread has returned, and every call that is under way or begun later, also one by the thread that caught the exception, never ends |
| Client.SetAtMostOnce | src/pollbook_client.cpp:169-479 | in every run of one request the promise is set at most once, and exactly when the chain has ended |
| Client.SetExactlyOnce | src/pollbook_client.cpp:169-479 | when every operation completes and every text that is read parses, the promise is set exactly once, after at most five completions |
| Client.SuccessNeedsApproval | src/pollbook_client.cpp:338-353 | success is reported only after an approving reply whose service signature verified |
| Exchange.FirstRequest | src/pollbook_client.cpp:355-429 | the first message carries the client's id, the time, and the names and data, or the ticket and PIN, of the caller, each in its own field |
| Exchange.CheckinWrittenIffVerified | src/pollbook_client.cpp:259-312 | over whole runs: a check-in request is among the written messages if and only if an ID reply was read whose statement verified under the ID service's key at that moment; there is one such request then, with that statement, its voter, the client's id, the time of the reply and the caller's names in their own fields |
| Exchange.UnverifiedEnds | src/pollbook_client.cpp:259-276 | if the statement does not verify, the one outcome is a failure and nothing more is written; if the reply cannot be read, the client dies with its promise unset |
| Exchange.OutcomeExplained | src/pollbook_client.cpp:189-479 | the one outcome is the one that belongs to the completion that ended the chain: a network error, an invalid signature, the reply's decision, or a reply that does not parse |
| Exchange.FailureEnds | src/pollbook_client.cpp:189-204 | a failure of the operation that is pending sets the promise to a network error |
| Client.SuccessIsLogged | src/pollbook_client.cpp:338-479 | end to end: a client that reports success talked to a service that had accepted, or approved, the voter named in the reply with that ticket, or that secret |
| Client.SuccessIsAboutNamed | src/pollbook_client.cpp:338-353 | the client does not compare the reply with its request: the acceptance behind a kiosk's success is that of a given voter, the one asked for or another, if and only if the reply names that voter (random tickets being distinct) |
| Client.SuccessForAnother | src/pollbook_client.cpp:338-353 | and it need not be the voter asked for: there is a run whose reply makes a client that waits for any other voter report success, although nothing has happened to that voter |
| Client.HonestDevicesSucceed | src/pollbook_client.cpp:169-479 | in the runs of `Honest.HonestRunCompletes` the kiosk's client writes exactly the two requests of the visit and its promise holds success, and the trusted device's client writes the ticket request and its promise holds success with the secret issued with the ticket |
| Client.PollbookClient.CheckInVoter | src/pollbook_client.cpp:369-388 | throws exactly when a service is not connected; otherwise there is a new promise, and the signed ID request with the names, the data and the time is being written |
| Client.PollbookClient.CheckInVoterById | src/pollbook_client.cpp:355-367 | the same with the four bytes of the voter id in front of the data |
| Client.PollbookClient.VerifyTicket | src/pollbook_client.cpp:390-429 | throws exactly when the check-in service is not connected; otherwise there is a new promise, and the signed request with the ticket and the PIN is being written |
| Client.PollbookClient.OnIdReply | src/pollbook_client.cpp:259-312 | the chain goes on exactly when the ID service's signature verifies, with a check-in request for the voter that the service named, dated anew and signed |
| Client.PollbookClient.OnCheckinReply | src/pollbook_client.cpp:338-353 | the promise is set as signature and approval say |
| Client.PollbookClient.OnTicketReply | src/pollbook_client.cpp:431-479 | the promise is set as parsing, signature and approval say |
| Client.PollbookClient.OnWritten | src/pollbook_client.cpp:189-204 | a completed write starts the next operation, a failed one sets the promise |

## Left out

- TLS, sockets and certificates: a handshake step brings an endpoint, a client id and a key. Endpoints are distinct connections, and the id has already been read out of the certificate.
- RSA and SHA-256: signatures are ideal triples of key, body and bytes. Bodies are compared as JSON trees, so the model relies on `dump` being injective and on it writing no raw line feed (section 7 of RFC 8259).
- The JSON text parser and printer: payloads are trees; floating-point numbers, nulls, arrays and invalid UTF-8 do not occur in them. A payload that does not parse is `None`.
- Base64: modelled as section 4 of RFC 4648 rather than as OpenSSL's stream calls; a message with malformed Base64 text is one that cannot be read.
- Uncaught exceptions that end the process (a malformed check-in request, a length line that is not a number, a client id that is not a number) are modelled as a message without effect, after which that connection is not read again.
- File-open failures, failed writes and failures of the random generator: writes succeed, and random strings are inputs of any value, repeated ones included. The key folder does not change while a service runs; the keys that `handle_accept` saves there are not read back.
- `std::abs` of the smallest 64-bit value is undefined in C++; its value is a parameter (`absMin`), and results hold for each value of it.
- ID data shorter than four bytes: the bytes that `memcpy` reads beyond it are a parameter of the step.
- FaultTracker, WarningQueryServer, logging, the PIN table, the socket map and the voter name map: they decide nothing.
- The envelope encryption in `src/openssl`: not used by the protocol.
- Framing.Connection.Callback: after a frame with a wrong length the bytes stay in the source's buffer, which nothing reads any more; here they are dropped. The decision to read again is an input of the connection; the protocol model makes it message by message (`armed`).
- Conversion of INI values to numbers, case-insensitive INI maps, custom separators and single-line mode: `Config` uses none of them for parsing.
- The clients' result texts: a failed outcome carries a short text of its own, a successful Phase 1 an empty one.
- Memory orders of the singleton's atomic flag: accesses are interleaved, sequentially consistent.
- Theorems.NeverAcceptedTwice: compares request bodies, so a body that is signed twice counts as one request; it needs the two clocks to advance together and the wall clock to be at least one interval from zero and from 2^63.
- Honest.HonestRunCompletes: at the very end of the window the timeout may run first, so there the theorem needs that it has not run; and no acceptance in between draws the same random ticket.
- Visits.VisitCompletes: likewise; and the first key that is shown under a client id is the one that counts, so a device whose id somebody else used before with another key is not served.
- Protocol.Initial: every result about runs starts from a ticket file that is empty or ends in a line feed; with a file that was cut off in the middle of a line, the first ticket of a run would be appended to that line.
- CheckinService.LoadVoterList: what the process does after the exception is not modelled.
