# KoreChat bouncer: a verified model

KoreChat keeps one upstream IRC connection per network alive while browsers come and go. This project
models the parts of it that are state machines or codecs, and proves what they promise:

- the bouncer connection: its per-channel ring buffers, the hand-off from replay to live delivery,
  capability negotiation with SASL, nick fallback, nick and channel tracking over reconnects, NICK
  de-duplication, the keepalive and the reconnect back-off;
- the manager that swaps, stops and starts connections;
- the IRCv3 message parser and printer, and the two other places that take the same lines apart by hand;
- the Postgres array literals in which channel lists are stored;
- the browser's message reducer, and the send queue between the bouncer and one WebSocket.

Text is modelled character by character. The concurrent parts are modelled as runs: a run is the order in
which the critical sections of all goroutines were entered, and a theorem about runs holds of every
interleaving. Code that updates fields in place is a class whose methods are proved to refine the functions
that the runs are made of, so the same step is written once as code and once as meaning.

## How the modules fit together

| files | what they hold |
|---|---|
| `Options`, `GoStrings` | the option type and the parts of Go's `strings` package that the code calls |
| `TagEscape`, `BrowserTags` | tag values: five chained replacements, the unescaper, the browser's own decoder |
| `Message`, `MessageRoundTrip`, `MessageNormalForm` | the IRCv3 parser and printer, and how each undoes the other |
| `LineRouting`, `RoutingAgreement`, `LoggedEvents`, `Stamping` | routing keys, log entries and time stamps taken from raw lines |
| `PgArray` | array literals |
| `RingBuffer`, `Handoff`, `BouncerBuffers` | buffers, replay and live delivery |
| `CapLine`, `Registration`, `Negotiation`, `NegotiationSteps` | the list in a CAP line, the CAP and SASL handlers, all runs against a server that answers, and what each step of them sends |
| `NickTracking`, `TrackedLines`, `NickDedup`, `Liveness` | nicks and channels, the lines they are read from, repeated NICK events, time-outs and back-off |
| `Manager`, `ManagerSlots` | connection slots, one call alone and all calls interleaved |
| `StableSort`, `Reducer`, `ReducerEffects` | the browser's message lists, and what each action does to them |
| `SendQueue` | the bounded queue and its batching writer |

## Where the code falls short of what it promises

All but the last of these are theorems about the code as it stands, usually an exact condition for the
promise to hold; the last is a note on comments.

- Printing a parsed message and parsing it again gives another message when it has a tag with neither key nor
  value (`@= A`), or a command that starts with `:` or `@` (`: :X`); on all other lines without CR or LF it is
  a normal form (`ParseFormatParse`, `NotNormalForms`).
- The browser decodes tag values with chained replacements and misreads exactly the values with a backslash
  directly followed by `:`, `s`, `r` or `n` (`BrowserAgrees`).
- The list holding one empty string comes back from its array literal as the empty list; every other list
  comes back (`ParseUndoesPrint`).
- The logger trims trailing white space from message text (`LoggedText`), and skips empty parameters. It files
  a channel event under its channel exactly when something behind the channel remains after trimming or, for
  all but KICK, the channel does not end in white space (`LoggedChannel`), and it reads the same parameters as
  the parser exactly when none before the last is empty and the last that the parser reads does not end in
  white space (`ParametersAgree`). The parser in turn gives a channel message back exactly when its text does
  not end in CR or LF (`ParsedText`).
- The list in a CAP answer is only read behind a colon. A lone `sasl` that the server grants without one is not
  recorded, and the bouncer ends negotiation without SASL, exactly in that case (`NegotiationOutcome`,
  `BareAckLosesSasl`).
- A JOIN's channel loses the colon of a trailing parameter, but a PART's channel and a KICK's target do not. So
  a channel that we left by such a PART or KICK stays in the rejoin list until we enter it or leave it bare
  again (`StaleExactly`, `ColonPartStays`, `ColonKickStays`).
- The channels tracked before a reconnect, or stored, stay tracked although the server has us in none of them,
  and a refused rejoin is only logged, so such a channel stays until an event of ours concerns it
  (`RefusedRejoinStays`). On runs of live lines the tracked channels are the server's except exactly for these
  and the ones of the point before, and never lack one (`JoinedRefines`).
- The lines of a CHATHISTORY batch are tracked like live ones (`internal/bnc/conn.go:680`), so an old PART of
  ours that a server replays takes a channel off the list although we are in it (`BatchedPartHeard`).
- For the same reason a PART, KICK or MODE whose channel is printed with a colon has no routing key, and is kept
  in the server buffer; a PRIVMSG, NOTICE, TOPIC or JOIN is kept under its channel (`ColonKey`).
- A line is stamped with the receive time unless `time=` stands anywhere in its tag block. A message with a tag
  such as `lifetime=1` and no readable time is therefore never stamped and never replayed
  (`MessageReplayable`, `NeverStamped`).
- The comment above `buffer` says membership events are not buffered (`internal/bnc/conn.go:1202-1205`); they
  are, and are filtered out at replay. The package comment speaks of a back-off from 5 s to 300 s
  (`internal/bnc/conn.go:20`); the constants give 2 s to 30 s. The model follows the code.

## Model

| member | source | states |
|---|---|---|
| TagEscape.UnescapeTagValue | pkg/ircv3/message.go:207-231 | The loop computes the recursive meaning of escaped text, including an unknown escape letter and a lone final backslash. |
| TagEscape.PassesAreOneMap | pkg/ircv3/message.go:198-205 | The five chained replacement passes equal one per-character table, for every value. |
| TagEscape.EscapedAs | pkg/ircv3/message.go:198-205 | The five characters that are escaped, what each becomes, and that every other stays. |
| TagEscape.UnescapedAs | pkg/ircv3/message.go:207-231 | What each escape letter stands for, that an unknown one stands for itself and a final backslash for itself. |
| TagEscape.EscapeEachClean | pkg/ircv3/message.go:198-205 | The table's output never holds `;`, space, CR or LF. |
| TagEscape.UnescapeEscapeEach | pkg/ircv3/message.go:198-231 | Unescaping undoes the per-character table on every string. |
| TagEscape.EscapeRoundTrip | pkg/ircv3/message.go:198-231 | unescape(escape(v)) = v for every v; the escaped value has no delimiter and is empty only for the empty value. |
| BrowserTags.BrowserAgrees | frontend/app.jsx:232-234 | The browser's chained decoder agrees with the server's unescape on an escaped value if and only if the value has no backslash directly followed by `:`, `s`, `r` or `n`; so on every backslash-free value. |
| BrowserTags.BrowserMisreads | frontend/app.jsx:232-234 | The concrete two-character value on which they differ. |
| BrowserTags.DecodeGood | frontend/app.jsx:232-234 | Each pass undoes exactly its own escape on values without the four pairs, so decoding restores the value. |
| BrowserTags.CountDecoded | frontend/app.jsx:232-234 | How many of each delimiter the browser shows for any value: those in it plus one per misread pair. |
| Ircv3.Parse | pkg/ircv3/message.go:64-124 | The position-advancing parser returns the message that the grammar-shaped definition gives the trimmed line. |
| Ircv3.ParseTags | pkg/ircv3/message.go:78-84 | The tag loop skips empty tags and lets a later tag override an earlier one. |
| Ircv3.ParseUntagged | pkg/ircv3/message.go:87-97 | Prefix with and without anything behind it. |
| Ircv3.ParseBody | pkg/ircv3/message.go:99-121 | Upper-cased command, then the parameters of the rest. |
| Ircv3.ParseParams | pkg/ircv3/message.go:108-121 | The parameter loop consumes input on every turn and yields all parameters, empty ones and the trailing one included. |
| Ircv3.Format | pkg/ircv3/message.go:127-164 | The printed line is the printing of the message under some order of its tag map. |
| Ircv3.FormatTags | pkg/ircv3/message.go:130-145 | Ranging over the tag map visits every tag once, in an order that is left open. |
| Ircv3.FormatParams | pkg/ircv3/message.go:155-161 | The colon goes before the last parameter only, and only where it is needed. |
| GoStrings.ToUpperLetters | pkg/ircv3/message.go:102-105 | Each of the 26 small letters becomes its capital, and every other character stays. |
| GoStrings.SpacesAre | internal/logging/logger.go:386-398 | The 25 characters that are trimmed as white space. |
| MessageRoundTrip.ParamsRoundTrip | pkg/ircv3/message.go:108-121 | Every non-empty parameter list with clean middle parameters is read back, whatever the last one holds. |
| MessageRoundTrip.TagsReadBack | pkg/ircv3/message.go:78-84 | Reading the printed tags of any order gives the map back. |
| MessageRoundTrip.LastTagWins | pkg/ircv3/message.go:78-84 | Of several tags of one key the last one counts. |
| MessageRoundTrip.EarlyEnds | pkg/ircv3/message.go:72-94 | A line of one word of tags parses to nothing, and one word behind a colon to a prefix alone. |
| MessageRoundTrip.ParseUndoesFormat | pkg/ircv3/message.go:64-164 | Parsing a printed well-formed message gives the same message, for every order of its tags. |
| MessageRoundTrip.FormatThenParse | pkg/ircv3/message.go:64-164 | The same for the two methods run one after the other. |
| MessageNormalForm.ParsedMessage | pkg/ircv3/message.go:64-124 | Every parsed line without CR or LF is well-formed up to the two conditions of `Reprintable`. |
| MessageNormalForm.ParseFormatParse | pkg/ircv3/message.go:64-164 | Parse(Format(Parse(raw))) = Parse(raw) for raw without CR or LF if and only if the parsed command cannot pass for a prefix or tag block and no tag has neither key nor value. |
| MessageNormalForm.NotNormalForms | pkg/ircv3/message.go:64-164 | Two concrete lines that are not normal forms. |
| MessageNormalForm.CommandLost | pkg/ircv3/message.go:87-106 | A command that stands where a prefix or tag block would is never read back. |
| MessageNormalForm.InvisibleTagLost | pkg/ircv3/message.go:78-84 | A tag with neither key nor value is never read back. |
| LineRouting.ParseIRCLine | internal/logging/logger.go:366-506 | The logger's parser with every early exit: no space after tags or prefix, other commands, synthetic senders, missing parameters. |
| LineRouting.SenderIs | internal/logging/logger.go:528-533 | The nick found in a prefix is what stands before the first `!`, or the whole prefix: the one nick without `!` that the prefix is, or starts with before a `!`. |
| LineRouting.ReadServerTime | internal/logging/logger.go:377-385 | The loop keeps the last readable `time=` tag. |
| LineRouting.ParseUntaggedLine | internal/logging/logger.go:390-399 | Prefix stripped and the rest trimmed, or no entry when nothing follows the prefix. |
| LineRouting.ParseCommand | internal/logging/logger.go:401-421 | Only the eight loggable commands of a sender without `*` go on. |
| LoggedEvents.LoggedEntry | internal/logging/logger.go:366-506 | The entry of every formatted message of the eight commands from `nick` or `nick!host`, whatever its parameters hold, with that nick and from the parameters left after trimming. |
| LoggedEvents.TalkLogged | internal/logging/logger.go:438-448 | A PRIVMSG or NOTICE, to a channel or to a nick, has an entry if and only if two parameters are left, filed under its target only if that is a channel. |
| LoggedEvents.NotRecorded | internal/logging/logger.go:410-419 | No other command leaves an entry, and no sender whose prefix starts with `*`. |
| RoutingAgreement.LoggedUnprefixed | internal/logging/logger.go:390-408 | A line without tags and prefix is recorded for the empty nick, with only CR and LF cut off its end. |
| RoutingAgreement.OneWordLogged | internal/logging/logger.go:371-396 | A line of one word of tags, or of one word behind a colon, leaves no entry. |
| LoggedEvents.KeptWords | internal/logging/logger.go:509-526 | Exactly which parameters splitParams finds in a printed and trimmed list: empty ones before the last fall out, and so does an end that neither shows nor has a colon. |
| LoggedEvents.ParametersAgree | internal/logging/logger.go:509-526 | On every formatted message splitParams and Parse read the same parameters if and only if none before the last is empty and the last that Parse reads, which cuts CR and LF off the line, does not end in white space. |
| LoggedEvents.ParsedPrinted | pkg/ircv3/message.go:64-124 | What Parse makes of every formatted message of the eight commands, CR and LF in the last parameter included. |
| LoggedEvents.LoggedChannel | internal/logging/logger.go:450-502 | A TOPIC, JOIN, PART, KICK or MODE is filed under its channel if and only if a later parameter remains after trimming or, except for KICK, the channel does not end in white space. |
| LoggedEvents.Sentences | internal/logging/logger.go:450-505 | For every JOIN, PART, QUIT, KICK, TOPIC and MODE from `nick` or `nick!host`: is there an entry, and its channel, sentence, nick, kind and time, told from the parameters that are left after trimming, which are all of them when the logger reads them whole. |
| LineRouting.SplitParams | internal/logging/logger.go:509-526 | The consuming loop yields the words up to and including a trailing parameter. |
| RoutingAgreement.RoutingKey | internal/bnc/conn.go:1472-1535 | On every printed, prefixed PRIVMSG, NOTICE, TOPIC, JOIN, PART, KICK or MODE the routing key is the first parameter if it starts with `#` or `&` and empty if it does not. |
| RoutingAgreement.NoKey | internal/bnc/conn.go:1500-1534 | A command other than these seven, 353 and 366 has no routing key. |
| RoutingAgreement.ColonKey | internal/bnc/conn.go:1500-1514 | A channel printed with a colon is the routing key of a PRIVMSG, NOTICE, TOPIC or JOIN, and not of a PART, KICK or MODE. |
| RoutingAgreement.NamesKey | internal/bnc/conn.go:1515-1532 | A printed 353 is kept under its third parameter and a 366 under its second if that names a channel, and under no channel if it does not. |
| RoutingAgreement.TimesAgree | internal/bnc/conn.go:218-237 | The bouncer's first readable time tag and the logger's last one are the same on printed tags. |
| RoutingAgreement.FirstTimeIs | internal/bnc/conn.go:226-235 | On any tags whatever the bouncer takes the first readable time. |
| RoutingAgreement.LastTimeIs | internal/logging/logger.go:377-385 | On any tags whatever the logger takes the last one. |
| RoutingAgreement.LoggedText | internal/logging/logger.go:366-448 | The exact log entry of a channel message from `nick` or `nick!host` for every text: that nick, and the text less its trailing white space, or no entry when it was printed bare and is all white space. |
| RoutingAgreement.LoggedTextKept | internal/logging/logger.go:366-448 | The entry holds channel, nick, kind, text and time of the message if and only if the text has no trailing white space. |
| LoggedEvents.ParsedText | pkg/ircv3/message.go:64-164 | The parser gives a formatted channel message back if and only if its text does not end in CR or LF. |
| LoggedEvents.ReadingsAgree | internal/bnc/conn.go:1472-1535 | The readings against each other, on every formatted channel message: the routing key is the parsed channel, and the log entry is the parsed message's if and only if its text, if it has one, does not end in white space. |
| LoggedEvents.ReadingsFaithful | internal/bnc/conn.go:1472-1535 | The readings against the message: the routing key is its channel; the entry holds its text if and only if that has no trailing white space; the parser gives it back if and only if its text does not end in CR or LF. |
| Stamping.StampTime | internal/bnc/conn.go:1211-1221 | The time carried by any buffered line: the receive time if it was stamped, else only what its own tags say. |
| Stamping.StampParsed | internal/bnc/conn.go:1211-1221 | For every line: what is buffered parses to the message of the line itself, with the receive time in front of its tags (where a time tag of its own still wins) if it was stamped, and nothing else added or lost. |
| Stamping.StampRouted | internal/bnc/conn.go:1209-1221 | The routing key of a buffered line is that of the line; an untagged one only loses leading spaces. |
| Stamping.StampedMessage | internal/bnc/conn.go:1211-1221 | Of a printed message every tag, the prefix, command and parameters survive stamping, and it is stamped if and only if none of its tags, as printed, has `time=` in it. |
| Stamping.StampKeepsMembership | internal/bnc/conn.go:1368-1391 | Stamping never changes whether a line counts as a membership event. |
| Stamping.HasTimeOfPrinted | internal/bnc/conn.go:1212 | A printed message goes unstamped if and only if one of its tags, as printed, has `time=` in it. |
| Stamping.PrintedReading | internal/bnc/conn.go:1368-1391 | A printed line of any command is a membership event if and only if the command is JOIN, PART, QUIT, KICK or MODE, and its time is that of the message's `time` tag. |
| Stamping.MessageReplayable | internal/bnc/conn.go:292-304 | A channel PRIVMSG, NOTICE, TOPIC, JOIN, PART, KICK or MODE is kept under its channel, and may be replayed if and only if it is no membership event and its time tag is readable or no tag has `time=` in it. |
| Stamping.NeverStamped | internal/bnc/conn.go:1211-1213 | A message with the tag `lifetime=1` is never replayed. |
| PgArray.EscapePostgresString | internal/store/store.go:830-839 | Quotes and backslashes get a backslash, all else stays. |
| PgArray.EscapedLength | internal/store/store.go:830-839 | One backslash per quote or backslash and no more; a text without these is unchanged. |
| PgArray.EscapedAnywhere | internal/store/store.go:852-860 | A backslash takes the next character with it, inside quotes and outside. |
| PgArray.AutoJoinToDB | internal/store/store.go:790-802 | The literal is the braces around all elements quoted, empty list included. |
| PgArray.ParsePostgresArray | internal/store/store.go:842-876 | The quote and escape loop is the run of a four-field automaton and its final step. |
| PgArray.RunEscaped | internal/store/store.go:851-871 | Inside quotes the automaton reads escaped text back character by character. |
| PgArray.RunListed | internal/store/store.go:851-871 | After any printed list the automaton holds all elements but the last, and the last as current text. |
| PgArray.ArrayOfLiteral | internal/store/store.go:842-876 | What the parser makes of any list printed in any mix of quoted and bare elements. |
| PgArray.ParseUndoesPrint | internal/store/store.go:790-876 | Reading back gives the list if and only if it is not the one empty string, for every mix of quoted and bare. |
| PgArray.SaveThenLoad | internal/store/store.go:790-876 | The two methods in sequence give every list back but the one empty name. |
| Ring.RingBuffer.constructor | internal/bnc/conn.go:64 | A new buffer holds nothing. |
| Ring.RingBuffer.Push | internal/bnc/conn.go:66-73 | The contents become the last `cap` of the old contents and the new line. |
| Ring.RingBuffer.OldestLine | internal/bnc/conn.go:75-82 | The first line held, or none. |
| Ring.RingBuffer.Lines | internal/bnc/conn.go:84-94 | The wrapped read returns the contents, which `Valid` ties to the last min(pushes, cap) lines pushed, in order. |
| Ring.HeldAfterPush | internal/bnc/conn.go:66-73 | Writing at the head of a full or part-filled circle drops the oldest entry if full and appends the new one. |
| Ring.LastOfLast | internal/bnc/conn.go:66-94 | Truncating after every push equals truncating the whole log once. |
| Handoff.BufferIsLogSuffix | internal/bnc/conn.go:1223-1234 | In every run a channel's buffer is the last 5000 lines ever buffered under it, in order. |
| Handoff.FilterSelects | internal/bnc/conn.go:298-303 | What is kept of a buffer stands at strictly rising positions, which are exactly those of the timed lines that are no membership events. |
| Handoff.ReplayInOrder | internal/bnc/conn.go:277-304 | In every run a subscriber's replay of a channel is, in the order of buffering, exactly the timed non-membership lines of the last 5000 buffered under it before it registered. |
| Handoff.ReplayIsFilteredSuffix | internal/bnc/conn.go:277-304 | The same through the filter that the other results count in. |
| Handoff.LogOfChannel | internal/bnc/conn.go:1226-1229 | Under a channel are kept exactly the lines that target it. |
| Handoff.ServerBufferIsSuffix | internal/bnc/conn.go:1016-1019 | The server buffer holds the last 5000 lines without a channel since the last 001, in order. |
| Handoff.LiveDelivery | internal/bnc/conn.go:1237-1248 | A line reaches an attachment live, and once, if and only if it is fanned out while the session is attached. |
| Handoff.AttachedMeansInSubs | internal/bnc/conn.go:379-384 | The subscriber table holds an attachment if and only if its session was neither detached nor attached anew since. |
| Handoff.ReplayDelivery | internal/bnc/conn.go:277-304 | A line is in an attachment's replay, and once, if and only if it was buffered before, may be replayed, and fewer than 5000 lines entered its channel in between. |
| Handoff.NothingLost | internal/bnc/conn.go:244-319 | In every interleaving the line arrives unless it was evicted before registration; it arrives twice if and only if registration fell between its buffering and its fan-out and it was not evicted. |
| Handoff.LiveGrows | internal/bnc/conn.go:1237-1248 | Live delivery only appends. |
| BouncerBuffers.Conn.Buffer | internal/bnc/conn.go:1223-1234 | Pushes the line on the buffer of its key, made if missing; all other buffers stay. |
| BouncerBuffers.Conn.ResetServerBuffer | internal/bnc/conn.go:1016-1019 | 001 empties the server buffer and no other. |
| BouncerBuffers.Conn.FanOut | internal/bnc/conn.go:1237-1248 | Everyone attached at the snapshot is sent the line, each once, and nobody else. |
| BouncerBuffers.Conn.Subscribe | internal/bnc/conn.go:244-319 | Attaches the session and returns the server lines, then every channel's filtered buffer, each channel once, in some order. |
| BouncerBuffers.Conn.Unsubscribe | internal/bnc/conn.go:379-384 | Removes one session. |
| BouncerBuffers.ReplayLines | internal/bnc/conn.go:284-304 | The cutoff scan and the filter loop together keep exactly the timed non-membership lines, in buffer order: a buffer without any readable time gives nothing. |
| BouncerBuffers.SentAsOftenAsSnapshot | internal/bnc/conn.go:263-304 | In whatever order the channels are ranged over, a channel line is sent as often as its channel's snapshot holds it. |
| BouncerBuffers.BufsKeyed | internal/bnc/conn.go:1226-1233 | In every run a line is only ever held under its own key. |
| CapLine.CollectCaps | internal/bnc/conn.go:781-791 | The loop takes the text from the first part with a colon on, nothing if there is none, and notes a `*` before it. |
| CapLine.StarBefore | internal/bnc/conn.go:784-791 | A list with a `*` before it is to be continued and is read the same; without one it is not. |
| CapLine.FieldsParted | internal/bnc/conn.go:798 | Any white space parts the names of a list. |
| CapLine.FieldsAreWords | internal/bnc/conn.go:798 | No name read from a list is empty or holds white space. |
| CapLine.HeardWithColon | internal/bnc/conn.go:781-798 | Every list of words printed behind a colon is read back word by word. |
| CapLine.HeardBare | internal/bnc/conn.go:781-798 | A single word printed without a colon is not read at all. |
| Registration.Conn.Dial | internal/bnc/conn.go:563-576 | A dial forgets all negotiation state and opens with CAP LS. |
| Registration.Conn.CapLs | internal/bnc/conn.go:797-847 | Advertised names are collected over continued lines; the last one sends a request for the desired and advertised ones, with the draft name of chathistory as a fallback. |
| Registration.Conn.CapAck | internal/bnc/conn.go:849-886 | Grants are recorded, then the request is settled. |
| Registration.Conn.CapNak | internal/bnc/conn.go:888-926 | A bulk rejection queues all but the first and asks for that one; a single one is settled. |
| Registration.Conn.SettleRequest | internal/bnc/conn.go:861-885 | The next queued capability, or AUTHENTICATE if SASL is configured and granted, or CAP END. |
| Registration.Conn.AuthenticateReply | internal/bnc/conn.go:929-949 | Credentials or an abort, and only after `+`. |
| NegotiationSteps.StepSends | internal/bnc/conn.go:576-990 | At every step of every run the bouncer writes exactly the listed line or none: what it is for each event, told from the protocol's state. |
| NegotiationSteps.SecretsOnly | internal/bnc/conn.go:928-949 | In every run the credentials go out in answer to `+` under PLAIN, in any case of letters, and in no other step; the abort answers `+` under any other mechanism; AUTHENTICATE names the configured mechanism. |
| Registration.Conn.SaslNumeric | internal/bnc/conn.go:951-990 | The first success and each failure send CAP END. |
| Negotiation.WantedIsKnown | internal/bnc/conn.go:816-847 | The wanted list has no repeats and only names the bouncer knows. |
| NegotiationSteps.WantedExactly | internal/bnc/conn.go:816-845 | A name is wanted if and only if it is one of the six, or `sasl` with SASL configured, and on offer, or the draft name of chathistory on offer alone. |
| NegotiationSteps.ListedAlways | internal/bnc/conn.go:797-804 | What is on offer is every name listed since the last dial, over all lines of the list. |
| NegotiationSteps.AsksForOffered | internal/bnc/conn.go:797-847 | On the last line of the list the bouncer asks once, for exactly the wanted names of all the lines. |
| NegotiationSteps.NameListed | internal/bnc/conn.go:800-802 | A listed name is what stands before the `=`, in lower case. |
| NegotiationSteps.ToLowerLetters | internal/bnc/conn.go:800-802 | Each of the 26 capital letters becomes its small one, and every other character stays. |
| NegotiationSteps.NameAcked | internal/bnc/conn.go:851-853 | A granted name is recorded in lower case without a `-` before it. |
| NegotiationSteps.OneByOne | internal/bnc/conn.go:861-899 | A list that was rejected as a whole is asked for again name by name, in its order. |
| NegotiationSteps.InflightMeans | internal/bnc/conn.go:861-899 | In every run `capInflight` is set if and only if a request is outstanding that is not the first. |
| Negotiation.InvAlways | internal/bnc/conn.go:795-990 | The invariant behind the results below, kept by every step of every run with any number of dials. |
| Negotiation.NegotiationConserves | internal/bnc/conn.go:781-926 | At every step the wanted capabilities are the disjoint union of granted, rejected, outstanding and queued; those recorded as acknowledged are the granted ones but for any granted without a colon; at most one of the requests sent is unanswered, and at most as many were sent as there are wanted capabilities, plus one. |
| Negotiation.NegotiationOutcome | internal/bnc/conn.go:781-926 | Negotiation ends with all wanted names granted or rejected, in one AUTHENTICATE or one CAP END; it is AUTHENTICATE just when SASL is configured and was granted, if and only if `sasl` was not granted without a colon. |
| Negotiation.BareAckLosesSasl | internal/bnc/conn.go:784-791 | The three-event run in which `sasl` is granted and CAP END is sent all the same. |
| Negotiation.CapEndOnce | internal/bnc/conn.go:951-990 | Over any number of reconnects, CAP END was sent once since the last dial if registration has completed and not at all before. |
| Negotiation.AnswerSpends | internal/bnc/conn.go:849-926 | Every answer of the server lowers a bound on the answers still to come. |
| Negotiation.NegotiationTerminates | internal/bnc/conn.go:849-926 | From no point of any run can more ACKs and NAKs follow one another than there are wanted capabilities, plus one. |
| Negotiation.NumericsCount | internal/bnc/conn.go:951-990 | For any numerics whatever, in any order: one CAP END per failure and one for all successes together. |
| NickTracking.Conn.constructor | internal/bnc/conn.go:163-188 | Seeds the joined channels from the stored list, blanks left out. |
| NickTracking.Conn.Dial | internal/bnc/conn.go:563-566 | Back to the configured nick, with no retries counted; the channels stay. |
| NickTracking.Conn.Welcome | internal/bnc/conn.go:992-1015 | Takes over the server's nick; clearing and re-seeding leaves the joined channels as they were. |
| NickTracking.Conn.NickInUse | internal/bnc/conn.go:1096-1114 | Counts a retry, adopts and offers the next nick. |
| NickTracking.Conn.Nick | internal/bnc/conn.go:1116-1131 | Follows a nick change only if it is our own. |
| NickTracking.Conn.Join | internal/bnc/conn.go:1133-1142 | Adds the channel, without a colon, only if we joined. |
| NickTracking.Conn.Part | internal/bnc/conn.go:1152-1178 | Removes the channel as printed only if we parted. |
| NickTracking.Conn.Kick | internal/bnc/conn.go:1162-1172 | Removes the channel only if we are the target. |
| NickTracking.NickRefines | internal/bnc/conn.go:992-1131 | From each 001 on, through every nick change and any number of reconnects, NICK lines repeated per shared channel included, the tracked nick is the server's nick for us. |
| NickTracking.RepeatedNick | internal/bnc/conn.go:1116-1131 | A run with a repeated NICK line of ours is among the runs covered, and the copy changes nothing. |
| NickTracking.JoinedExactly | internal/bnc/conn.go:1133-1178 | In every run, repeated NICK lines included, the joined channels are those whose latest self event, not counting a PART or KICK with a colon, is a JOIN, or that were seeded and have none. |
| NickTracking.JoinedRefines | internal/bnc/conn.go:1003-1178 | In every run, over any number of reconnects, a channel is tracked exactly as the server has us in it if and only if it is neither carried over from before the latest dial (or from the stored list) without an event of ours since, nor left by a PART or KICK with a colon that nothing the bouncer hears has made good; where the two differ the bouncer has one too many. |
| NickTracking.MembersOrCarried | internal/bnc/conn.go:1003-1015 | What the bouncer would track if it heard every event is the server's list and, apart from it, the channels carried over. |
| NickTracking.RefusedRejoinStays | internal/bnc/conn.go:1180-1192 | The six-event run after which a channel whose rejoin was refused is still tracked. |
| NickTracking.StaleExactly | internal/bnc/conn.go:1152-1178 | Counting only the PARTs and KICKs without a colon errs exactly on the channels left by one with a colon and not made good since, and only by keeping them. |
| NickTracking.ColonKickStays | internal/bnc/conn.go:1162-1172 | The four-event run after which a channel we were kicked from is still tracked. |
| NickTracking.ColonPartStays | internal/bnc/conn.go:1158-1178 | The four-event run after which a parted channel is still tracked. |
| TrackedLines.Intercept | internal/bnc/conn.go:734-758 | On any line, with or without tags and prefix, the tracking fields end up as the words of the line say: the handler of its command with the word that it reads, or nothing. |
| TrackedLines.HeardPrinted | internal/bnc/conn.go:734-1178 | On every line printed for a 001, 433, NICK, JOIN, PART, KICK or refusal, whatever its tags, prefix and further parameters, the bouncer hears that event with its colon. |
| TrackedLines.Unheard | internal/bnc/conn.go:744-758 | Lines of other commands change nothing, nor does a NICK, JOIN or PART without a prefix unless its own first word passes for our nick. |
| TrackedLines.LinesTrack | internal/bnc/conn.go:734-1178 | Over any run of such lines and reconnects the tracking fields are those of the run of events. |
| TrackedLines.LinesRefine | internal/bnc/conn.go:734-1178 | So the tracked nick and the exact condition for the tracked channels hold of runs of lines, repeated NICK lines included. |
| TrackedLines.BatchedPartHeard | internal/bnc/conn.go:668-680 | A PART of ours inside a history batch takes its channel off the list like a live one. |
| NickTracking.AttemptsFollow | internal/bnc/conn.go:1096-1114 | After any run, a dial and k rejections the connection offers the k-th attempt. |
| NickTracking.Offers | internal/bnc/conn.go:1096-1114 | After any run and a dial the offers are, in order: the configured nick, on the first rejection the alternate one if there is any, on every other one the configured nick with as many underscores as there were rejections. |
| NickTracking.FallbackFindsFree | internal/bnc/conn.go:1096-1114 | For every finite set of taken nicks and any alternate nick, a free nick comes after at most one more rejection than there are taken nicks, or as many without an alternate. |
| NickTracking.FallbackBoundMet | internal/bnc/conn.go:1105-1110 | With the alternate equal to the taken configured nick that bound is reached. |
| NickTracking.RejoinList | internal/bnc/conn.go:1064-1088 | The list has no repeats, holds exactly the channels named in both lists, and lists them in the order in which they are first named, the configured ones first. |
| NickTracking.JoinNameIs | internal/bnc/conn.go:1068-1075 | A name stands for itself without the white space around it, with a `#` in front unless it has one, and a blank name for none. |
| NickTracking.RejoinsEachOnce | internal/bnc/conn.go:1064-1093 | Every `#` channel of either list is rejoined exactly once. |
| NickDedup.NickFilter.IsDuplicate | internal/bnc/conn.go:1443-1459 | Answer and table after one event, the eviction loop included. |
| NickDedup.TablesAgree | internal/bnc/conn.go:1453-1458 | Under a clock that never goes back, the table is the never-evicting one less entries too old to matter. |
| NickDedup.EvictionUnseen | internal/bnc/conn.go:1446-1459 | Every event is decided as by the table that never evicts. |
| NickDedup.ReferenceIsLastAccepted | internal/bnc/conn.go:1446-1459 | The reference table holds the last accepted time of each pair. |
| NickDedup.PairKeyInjective | internal/bnc/conn.go:1443-1444 | The joined key stands for one pair of nicks only. |
| NickDedup.AcceptedExactly | internal/bnc/conn.go:1446-1459 | An event is accepted if and only if every earlier accepted event of the same nick change is at least five seconds old. |
| Liveness.Keepalive | internal/bnc/conn.go:606-633 | Each tick pings until the first one that finds the time-out, which closes the connection. |
| Liveness.ClosedInWindow | internal/bnc/conn.go:616-629 | The connection is closed more than 90 s and at most 120 s after its last data. |
| Liveness.SilenceIsNoticed | internal/bnc/conn.go:616-629 | After the last data some tick in that window finds the time-out. |
| Liveness.GiveUp | internal/bnc/conn.go:606-633 | Run long enough, the loop closes a silent connection more than 90 s and at most 120 s after the latest data it had seen. |
| Liveness.ConnectLoop | internal/bnc/conn.go:485-527 | The n-th wait since the last dial that reached a 001 is min(2^n, 30) seconds. |
| Liveness.AttemptCounts | internal/bnc/conn.go:1001-1002 | The attempt number is the number of dials since, and with, the latest one that reached a 001. |
| Liveness.WaitsAre | internal/bnc/conn.go:37-45 | The waits are 2, 4, 8, 16 and from then on 30 seconds. |
| ManagerSlots.InvAlways | internal/bnc/manager.go:70-128 | The slot invariant holds after every interleaving of calls and connection loops. |
| ManagerSlots.EveryConnAccountedFor | internal/bnc/manager.go:206-231 | In every interleaving a connection is stopped at most once, is un-stopped if and only if it is in its slot or held by a call, never both and never by two calls, and begins at most one dial after its stop. |
| ManagerSlots.QuietMeansOnePerNetwork | internal/bnc/manager.go:206-231 | With no call in flight the un-stopped connections are those in the slots, so at most one per network. |
| ManagerSlots.NoDialOnceStopped | internal/bnc/conn.go:485-527 | In every interleaving a connection that is stopped anywhere but between its look at the flag and its dial never dials again. |
| ManagerSlots.EndsSoon | internal/bnc/conn.go:485-527 | The loop of a stopped connection ends within three of its own moves. |
| ManagerSlots.OnlyStoppedEnds | internal/bnc/conn.go:485-527 | In every interleaving no loop ends but a stopped connection's. |
| Manager.Manager.StartConn | internal/bnc/manager.go:206-231 | The new connection takes the slot, the displaced one is stopped, no other slot changes. |
| Manager.Manager.AddNetwork | internal/bnc/manager.go:70-80 | Does nothing if the slot is taken. |
| Manager.Manager.RemoveNetwork | internal/bnc/manager.go:91-120 | Empties the slot and stops its connection. |
| Manager.Manager.RestartNetwork | internal/bnc/manager.go:84-88 | Replaces the connection. |
| Manager.StartAloneEffect | internal/bnc/manager.go:206-231 | Run without interference, the interleaved sections of startConn have the effect of the method. |
| Manager.AddAloneEffect | internal/bnc/manager.go:70-80 | Run alone, AddNetwork does nothing if the slot is taken and is startConn if it is not. |
| Manager.RemoveAloneEffect | internal/bnc/manager.go:91-120 | Run alone, the sections of RemoveNetwork empty the slot and stop its connection once, and nothing else changes. |
| StableSort.StableSortUnique | frontend/app.jsx:744-748 | There is only one stable sort by time, so the engine's choice of algorithm cannot show. |
| StableSort.InTimeOrderIsStable | frontend/app.jsx:744-748 | The reference order is sorted, keeps the order of equal times, and is a permutation. |
| StableSort.EngineSortIsReference | frontend/app.jsx:744-748 | Any engine's sort is that reference order on messages with valid times. |
| Reducer.InvReduce | frontend/app.jsx:581-785 | Every action keeps the invariant. |
| Reducer.ReducerInvariant | frontend/app.jsx:687-754 | Over every action sequence each list holds at most 1000 messages, and every id is in seenMsgIds and at most once across all lists. |
| ReducerEffects.AddMsgEffect | frontend/app.jsx:687-719 | An accepted message ends its channel's list, behind the last 999 messages in order; its id is recorded, the unread count goes up, to nought or stays; everything else stays, and all of it when the message is dropped. |
| ReducerEffects.DroppedExactly | frontend/app.jsx:691-705 | A message is dropped if and only if its id was seen or one of the last 30 messages of its channel, or any during a replay, has its nick, its minute and its first 40 characters. |
| ReducerEffects.HistoryKept | frontend/app.jsx:581-785 | Which actions can change the messages of a channel, and which record ids. |
| ReducerEffects.SortedLists | frontend/app.jsx:763-774 | SORT_MSGS puts every list of its network in time order and leaves the others. |
| ReducerEffects.NetworkForgotten | frontend/app.jsx:591-616 | Removing a network forgets exactly its channels, lists and counts, and the next network becomes active if it was. |
| ReducerEffects.NetworkListed | frontend/app.jsx:583-617 | Adding a network lists it once, behind the others. |
| ReducerEffects.OrderKept | frontend/app.jsx:591-616 | Removing a network keeps the order of the others. |
| ReducerEffects.KeysApart | frontend/app.jsx:568 | Networks whose ids hold no colon never share a channel key. |
| ReducerEffects.JoinEffect | frontend/app.jsx:621-631 | Joining lists a channel, keeps what it holds, shows the first one, and touches no other channel. |
| ReducerEffects.PartEffect | frontend/app.jsx:632-641 | Leaving keeps the messages, marks the channel, clears its count, and touches no other channel. |
| ReducerEffects.RejoinEffect | frontend/app.jsx:642-646 | Coming back takes the mark off a listed channel and nothing else. |
| ReducerEffects.CloseEffect | frontend/app.jsx:647-655 | Closing forgets the channel, its messages and its count, though not the ids seen, and no other channel's. |
| ReducerEffects.ReplayingWhen | frontend/app.jsx:755-762 | In every run a network is replaying from its REPLAY_START to its next REPLAY_DONE. |
| ReducerEffects.Selected | frontend/app.jsx:619-620 | The channel shown is the one last selected, and clearing its count clears no other. |
| Reducer.FilterTakes | frontend/app.jsx:725-741 | The stateful filter takes exactly the messages with an unseen, unrepeated id and a fingerprint of no existing or earlier taken message. |
| Reducer.PrependIsSortedMerge | frontend/app.jsx:720-754 | With valid times the list becomes the newest 1000 of the stable time order of new plus existing, all given ids are recorded, and nothing changes when nothing is new. |
| Reducer.NewestKept | frontend/app.jsx:749 | Nothing cut off is later than anything kept. |
| Reducer.PrependIdempotent | frontend/app.jsx:720-754 | Repeating a PREPEND_MSGS of messages with ids changes nothing. |
| Reducer.UnreadRises | frontend/app.jsx:707-718 | An unread count rises by one if and only if ADD_MSG accepts a message for a channel that is not active, outside a replay. |
| SendQueue.Session.SendFn | internal/ws/ws.go:195-207 | Accepts the line unless the queue is full. |
| SendQueue.Session.WriteFrame | internal/ws/ws.go:275-303 | One frame is the longest prefix of the queue of at most 64 lines. |
| SendQueue.FramesKeepOrder | internal/ws/ws.go:275-303 | With any number of producers, framed, in-hand and queued lines are the accepted lines in order, every frame holds 1 to 64 lines, and the inner drain always finds a line. |
| SendQueue.DroppedOnlyWhenBehind | internal/ws/ws.go:195-207 | In every run a line is dropped if and only if 8192 accepted lines are still to be received, counted over the writer's receives; there are never more. |
| SendQueue.FrameAlone | internal/ws/ws.go:275-303 | With no producer in between, the machine's steps for one frame have the effect of WriteFrame. |

## Left out

- Text is sequences of characters: invalid UTF-8, and JavaScript's UTF-16 units in `slice(0, 40)`, are not modelled, and upper- and lower-casing changes only the ASCII letters.
- `time.Parse` is a parameter; that it reads the bouncer's own clock text is an assumption of the stamping results, and an unreadable text and the zero instant are one case.
- The hand-off and registration machines take lines already split into events; `Stamping.Classified` makes that step for channel messages and `CapLine` for the list of a CAP answer. The rest of the splitting of CAP, AUTHENTICATE and numeric lines is not modelled.
- Nicks and channels are compared as strings, as the code does; a server that treats names alike up to case is seen as one that prints each name in one way.
- JOIN, PART and KICK lines without a channel parameter, on which the code indexes past the end, and comma-separated channel lists.
- The Postgres leg of replay: the queries of `Subscribe` phase 2, and the limits of the log query.
- The order in which lines of different writers reach one subscriber after the fan-out snapshots: the hand-off results stop at the call of `send`.
- Lines inside a CHATHISTORY batch, which are fanned out without being buffered, and the requests for them; the runs of the tracking results hold live lines only.
- Nick and channel results assume that there is no 433 after registration: after one the code at once adopts the fallback nick that it offers, before the server has confirmed it.
- `&` channels in the rejoin list: a `#` is put before them.
- TCP and TLS dialling, QUIT on stop, logging, notices, the network status store, on-connect commands and the text of SASL credentials.
- `Manager.Shutdown`, and the 200 ms pause in `startConn`.
- PgArray.ParsePostgresArray: a literal is "" or has two braces, as Postgres prints it; on a one-character string the original would fail on its slice.
- Reducer: topics, members, nicks and presence; the channel that becomes active when one is parted, which depends on object key order, is a parameter; invalid date strings, on which the original throws.
- StableSort.EngineSortIsReference: with a missing time the comparison is inconsistent and only a permutation is relied on.
- Reducer.PrependIsSortedMerge: for valid times only, for the same reason.
- The fingerprint of a message is a triple, not a string joined with `|`.
- SendQueue: sends to a closing session, failed writes and pings; no line is claimed to arrive after those.
- The hub, the built-in IRC server and the proxy.
