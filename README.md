# SIP2 codec model

This project models the Go SIP2 codec `pescew/sip` in Dafny. SIP2 is the 3M Standard Interchange Protocol, version 2.00: the line protocol between library self-check terminals (the "SC") and the circulation system (the "ACS").

Every message is one text line with four parts:
- a two-digit message code;
- a fixed-width prefix at exact rune offsets, holding flags, counts and 18-rune dates;
- tagged fields, each written as `<tag><value><delimiter>`;
- when error detection is on, an `AY<seq>AZ<checksum>` epilogue.

The line ends with a terminator.

The model covers the following:
- **Wire primitives** from `utils/utils.go`:
  - the checksum;
  - the tagged-field extractors;
  - the line-splitting function, with a driver loop over a chunked byte stream;
  - the one-character boolean codes;
  - the sequence-number increment;
  - the escape filter and the "sip" field rule.
- **Fixed-width flag fields** from `fields/`: patron status (14 flags), summary (6 flags) and supported messages (16 flags).
- **The message-code table** from `types/msgTypes.go`.
- **The two registries**, request and response, which choose a decoder from the first two bytes of a line.
- **The 31 message codecs**: 16 requests and 15 responses.
- **The configuration guards** of `NewServer` in `server/server.go`.

Modelling choices:
- Each message is a `datatype`.
- `Marshal` is a function from a message, the delimiter `d`, the terminator `t` and the error-detection switch `ed` to a string.
- `Unmarshal` is a function from a line to a `Result`.
- The validator's struct tags become a predicate `Valid(m, bad)`:
  - `required` means non-zero, or non-empty for strings;
  - `min`/`max`/`len`/`oneof` become explicit bounds;
  - `sip` becomes `Utils.SipField(s, bad)`.
- `bad` is the string of characters handed to `InitValidator`.
- Most round trips assume `DelimiterSafe(d)`. This says the delimiter is none of the characters the codec writes itself: upper-case letters `A`-`Z`, digits, the blank and the minus sign.

The proofs are organised as follows:
- Each codec states its layout in the `ensures` of `Marshal` and the decoded values in the `ensures` of `Unmarshal`.
- Each codec proves `RoundTrip`: `Unmarshal(Marshal(m))` gives `m` back.
  - With error detection off, the sequence number comes back as 0.
  - Where the Go code misbehaves, the round trip states the misbehaviour instead.
- The shared lemmas live in `wire.dfy` and `lists.dfy`:
  - what `Extract` reads back from a run of coded fields;
  - that the epilogue leaves every non-`AY` tag alone;
  - the layout of a framed line.

## Model

| member | source | states |
|---|---|---|
| Utils.YorN | utils/utils.go:33-38 | one rune, `Y` or `N`, which `ParseBool` reads back as the flag |
| Utils.YorBlank | utils/utils.go:40-45 | one rune, `Y` or blank, which `ParseBool` reads back as the flag |
| Utils.ZeroOrOne | utils/utils.go:47-52 | one rune, `1` or `0`, which `ParseBool` reads back as the flag |
| Utils.IncrementSeqNum | utils/utils.go:160-165 | 0..9 steps to the next value mod 10 and stays in 0..9; a negative input gives 0; an input above 9 gives input+1 |
| Utils.Checksum | utils/utils.go:62-71 | the checksum text has at least four upper-case hex digits |
| Utils.ComputeChecksum | utils/utils.go:62-71 | the accumulating loop over the runes returns exactly the checksum text of the message |
| Utils.AppendChecksum | utils/utils.go:73-75 | keeps the message as a prefix and appends hex digits whose value is the checksum value |
| Utils.AppendChecksumText | utils/utils.go:73-75 | appending is the message followed by its checksum text |
| Utils.ChecksumCancels | utils/utils.go:62-71 | rune sum plus checksum value is 0 mod 65536, so the checksum is the negated sum mod 65536 |
| Utils.ChecksumValueCases | utils/utils.go:62-71 | sum 0 gives 0x10000; a sum in 1..0xFFFF gives 0x10000-sum; a larger sum gives a value above 0x10000, because the value is never masked |
| Utils.ChecksumWidth | utils/utils.go:62-71 | the checksum has exactly four digits if and only if the rune sum is in 1..0xFFFF |
| Utils.ChecksumOfZeroSum | utils/utils.go:62-71 | a message whose runes sum to 0 gets the five-digit checksum `10000` |
| Utils.ContainsAny | utils/utils.go:98-106 | true if and only if some rune of the text is one of the given characters |
| Utils.SipField | utils/utils.go:98-106 | the "sip" rule holds if and only if the value has at most 255 runes and none of the bad characters |
| Escape.ConfigureEscapeCharacters | utils/utils.go:25-31 | the loop builds one (char, "") replacement pair per configured rune, in order |
| Escape.FirstMatchPairs | utils/utils.go:21-23 | the replacer matches at a position if and only if the rune there is a configured character |
| Escape.EscapeDeletes | utils/utils.go:21-31 | escaping with the configured pairs deletes every configured rune and keeps the other runes in order |
| Escape.EscapeIdempotent | utils/utils.go:21-31 | escaping twice is the same as escaping once |
| Escape.EscapedIsSip | utils/utils.go:21-31 | an escaped value of at most 255 runes satisfies the "sip" rule for the escaped characters |
| Scanner.Split | utils/utils.go:77-96 | empty data at EOF asks for nothing; the first terminator at byte i gives advance i+len and token `data[0:i]`; without a terminator it asks for more data, or returns all data at EOF; a token never holds the terminator |
| Scanner.LinesClean | utils/utils.go:77-96 | no line that splitting produces contains the terminator bytes |
| Scanner.LinesRejoin | utils/utils.go:77-96 | joining the lines with the terminator gives back the data, with at most one extra trailing terminator |
| Scanner.TokenIsLine | utils/utils.go:77-96 | each token that `Split` yields is the next line of the whole stream, whatever data follows |
| Scanner.Scan | utils/utils.go:77-96 | the loop that feeds chunks to `Split` returns exactly the lines of the concatenated stream |
| Codes.Cut | utils/utils.go:114 | if the delimiter is present, the text is before + delimiter + after, and before holds no delimiter; otherwise before is the whole text and after is empty |
| Codes.ExtractLookup | utils/utils.go:108-134 | the result has the same keys as the input map; each key holds the value of the last segment carrying its tag, or its incoming value if no segment does |
| Codes.ExtractFields | utils/utils.go:108-134 | the loop over the segments computes the extracted map and changes no key set |
| Codes.SequenceShort | utils/utils.go:116-124 | the extracted `AY` value never has more than one rune |
| Codes.SequenceRuneOnly | utils/utils.go:116-124 | `AY3AZ1A2B` yields the sequence value `3` |
| Codes.ExtractMultiLookup | utils/utils.go:136-158 | every tag's list is its incoming list followed by the values of all segments carrying that tag, in order of appearance |
| Codes.ExtractMultiFields | utils/utils.go:136-158 | the loop over the segments computes the extracted list map and changes no key set |
| Numbers.Atoi | request/blockPatron.go:64-72 | decimal parsing with an optional sign succeeds exactly on a non-empty run of digits, and then gives their value |
| Numbers.AtoiItoa | response/hold.go:50-51 | parsing a printed integer gives it back |
| Numbers.PadRoundTrip | request/patronStatus.go:33 | a zero-padded `%0wd` value has exactly w digits and parses back |
| Numbers.Hex4Value | utils/utils.go:69 | the `%4.4X` text has the value printed |
| Numbers.Hex4Width | utils/utils.go:69 | the `%4.4X` text has exactly four digits if and only if the value is below 0x10000 |
| Dates.YearText | utils/utils.go:14 | the year prints as four digits exactly when it lies in 0..9999, and those digits read back as the year; a negative year or one past 9999 prints wider |
| Dates.Format | utils/utils.go:14 | any Go time prints as at least 18 runes, and as exactly 18 runes iff its year lies in 0..9999 |
| Dates.FormatShape | utils/utils.go:14 | a time with a four-digit year prints as 8 digits, four blanks, then 6 digits |
| Dates.Parse | utils/utils.go:14 | parsing succeeds only on 8 digits, four blanks and 6 digits, and fails otherwise |
| Dates.ParseFormat | utils/utils.go:14 | parsing a printed date gives it back |
| Dates.FormatParse | utils/utils.go:14 | printing a parsed date gives back the text that was parsed |
| Dates.FractionLost | utils/utils.go:14 | a time with a four-digit year parses back truncated to the second, so a time carrying a fraction of a second never comes back as itself |
| Dates.WideYearRefused | utils/utils.go:14 | a time whose year lies outside 0..9999 prints wider than 18 runes, and that text does not parse |
| Flags.ReadText | response/acsStatus.go:51-56 | reading Y/N flag runes back gives the flags that were written |
| Wire.FrameChecksum | request/blockPatron.go:43-47 | the epilogue is `AY<seq>AZ`, then the checksum of everything written so far, then the terminator |
| Wire.SeqNumOfText | request/blockPatron.go:62-72 | a sequence number in 0..9 written into the epilogue reads back; with no epilogue the sequence number is 0 |
| Wire.ReadLine | utils/utils.go:108-134 | extracting from a marshalled line reads every emitted field back as written, and every field not emitted as empty |
| Lists.PresentKeeps | response/patronInfo.go:106-135 | a list with no empty element is written element by element |
| Lists.PresentDrops | response/patronInfo.go:106-135 | empty elements of a repeatable list are not written |
| Lists.BlockMatching | response/patronInfo.go:106-135 | in a block of repeatable fields, the segments carrying one tag are that list's non-empty elements, in order |
| Lists.ReadLists | response/patronInfo.go:188 | extracting repeatable fields from a marshalled line gives back each list's non-empty elements |
| FieldsPatronStatus.Marshal | fields/patronStatus.go:31-50 | exactly 14 runes, each `Y` or `N`, with rune i encoding flag i in declared order |
| FieldsPatronStatus.Unmarshal | fields/patronStatus.go:52-75 | fewer than 14 runes is `InvalidFieldPatronStatus`; otherwise flag i is `ParseBool` of rune i |
| FieldsPatronStatus.RoundTrip | fields/patronStatus.go:31-75 | decoding an encoding, whatever follows it, restores all 14 flags |
| FieldsPatronStatus.BlanksAreFalse | fields/patronStatus.go:13 | 14 blanks decode as all flags false |
| FieldsSummary.Marshal | fields/summary.go:23-35 | 10 runes: six Y/N flags in order, then four blanks |
| FieldsSummary.Unmarshal | fields/summary.go:37-52 | fewer than 6 runes is `InvalidFieldSummary`; otherwise flag i is `ParseBool` of rune i |
| FieldsSummary.RoundTrip | fields/summary.go:23-52 | decoding an encoding restores the six flags |
| FieldsSummary.RoundTripFlags | fields/summary.go:23-52 | decoding just the first six runes of an encoding restores the flags |
| FieldsSummary.Validate | fields/summary.go:54-79 | an error carries the number of set flags, which is then above one |
| FieldsSummary.ValidateIff | fields/summary.go:54-79 | no error if and only if no two flags are set |
| FieldsSupportedMessages.Marshal | fields/supportedMessages.go:32-53 | exactly 16 Y/N runes, with rune i encoding flag i in declared order |
| FieldsSupportedMessages.Unmarshal | fields/supportedMessages.go:55-95 | the loop over the runes computes the decoded receiver |
| FieldsSupportedMessages.DecodedAt | fields/supportedMessages.go:55-95 | flag i becomes `ParseBool` of rune i when the line has that rune, and keeps the receiver's flag otherwise |
| FieldsSupportedMessages.FullLineReplaces | fields/supportedMessages.go:55-95 | a line of 16 or more runes fixes every flag, whatever the receiver held |
| FieldsSupportedMessages.EmptyLineKeeps | fields/supportedMessages.go:55-95 | an empty line leaves the receiver unchanged |
| FieldsSupportedMessages.RoundTrip | fields/supportedMessages.go:32-95 | decoding an encoding into any receiver restores all 16 flags |
| MsgTypes.ID | types/msgTypes.go:108 | defined exactly on 0..99, and outside that an index fault; two digits that parse back to the code |
| MsgTypes.Name | types/msgTypes.go:110 | defined exactly on 0..99, and outside that an index fault |
| MsgTypes.IDInjective | types/msgTypes.go:213-215 | different codes have different IDs |
| MsgTypes.IDOfDigits | types/msgTypes.go:213-215 | every two-digit text is the ID of the code it spells |
| MsgTypes.NamedExactly | types/msgTypes.go:110-211 | the name is non-empty exactly at the request and response constants, and no code is both |
| MsgTypes.ResponseFollowsRequest | types/msgTypes.go:5-106 | for each of the 13 paired messages the response code is the request code plus one |
| RequestRegistry.MsgID | request/request.go:25 | the ID is the first two bytes of the UTF-8 line |
| RequestRegistry.Unmarshal | request/request.go:24-70 | a line under two bytes faults; otherwise the outcome carries the two-byte ID and exactly one of a request or an error |
| RequestRegistry.Dispatch | request/request.go:27-69 | a known code runs its registered decoder; a success is reported as (request, ID, no error), a failure as (none, ID, error) |
| RequestRegistry.DecodersAreRequests | request/request.go:27-62 | the registry's codes are exactly the 16 request codes |
| RequestRegistry.CodesAreIDs | request/request.go:27-62 | each codec's code is the ID of its request constant |
| RequestRegistry.NonAsciiUnknown | request/request.go:60-62 | a line starting with a non-ASCII rune is an unknown request |
| RequestRegistry.ResponseUnknown | request/request.go:60-62 | a response code is an unknown request |
| RequestRegistry.DecodedCode | request/request.go:27-69 | a decoded request comes from a line that starts with a request code |
| RequestRegistry.TypeNamed | request/request.go:25-27 | a two-byte ID of digits names the code whose ID it is |
| RequestRegistry.Report | request/request.go:64-69 | the outcome holds the message on success and the error on failure, never both, always with the ID |
| RequestRegistry.InitValidator | request/request.go:72-80 | the bad-character string is the concatenation of the given runes, and the "sip" rule refuses exactly them |
| ResponseRegistry.Unmarshal | response/response.go:24-68 | a line under two bytes faults; otherwise the outcome carries the two-byte ID and exactly one of a response or an error |
| ResponseRegistry.Dispatch | response/response.go:27-67 | a known code runs its registered decoder; a success is reported as (response, ID, no error), a failure as (none, ID, error) |
| ResponseRegistry.DecodersAreResponses | response/response.go:27-60 | the registry's codes are exactly the 15 response codes |
| ResponseRegistry.NonAsciiUnknown | response/response.go:58-60 | a line starting with a non-ASCII rune is an unknown response |
| ResponseRegistry.RequestUnknown | response/response.go:58-60 | a request code such as 01 is an unknown response |
| ResponseRegistry.DecodedCode | response/response.go:27-67 | a decoded response comes from a line that starts with a response code |
| ResponseRegistry.InitValidator | response/response.go:70-78 | the bad-character string is the concatenation of the given runes |
| RequestACSResend.Marshal | request/acsResend.go:17-26 | without error detection `97` + terminator; with it `97AZ`, the checksum of `97AZ` and the terminator, with no AY |
| RequestACSResend.Unmarshal | request/acsResend.go:28-40 | succeeds if and only if the line has at least two runes and starts with `97`; nothing after is read |
| RequestACSResend.RoundTrip | request/acsResend.go:17-40 | every encoding decodes |
| RequestBlockPatron.Marshal | request/blockPatron.go:29-49 | `01`, CardRetained Y/N at rune 2, the date at runes 3-20, then AO, AL, AA, AC always, then the epilogue and terminator |
| RequestBlockPatron.Unmarshal | request/blockPatron.go:51-92 | under 33 runes or another code is rejected; a decoded message is valid and reads its flag and date from runes 2 and 3-20 |
| RequestBlockPatron.MarshalLength | request/blockPatron.go:29-49 | every encoding has at least 33 runes, the decoder's minimum |
| RequestBlockPatron.RoundTrip | request/blockPatron.go:29-92 | a valid message decodes to itself; without error detection the sequence number comes back as 0 |
| RequestCheckin.Marshal | request/checkin.go:35-64 | `09`, NoBlock at rune 2, dates at runes 3-20 and 21-38, then the coded fields, epilogue and terminator |
| RequestCheckin.Unmarshal | request/checkin.go:66-118 | under 51 runes or another code is rejected; a decoded message is valid and reads its prefix from runes 2-38 |
| RequestCheckin.MarshalLength | request/checkin.go:35-64 | every encoding has at least 51 runes |
| RequestCheckin.RoundTrip | request/checkin.go:35-118 | a valid message decodes to itself, with sequence 0 when error detection is off |
| RequestCheckout.Marshal | request/checkout.go:38-75 | `11`, two Y/N flags at runes 2-3, dates at 4-21 and 22-39, then the coded fields, epilogue and terminator |
| RequestCheckout.Unmarshal | request/checkout.go:77-135 | under 52 runes or another code is rejected; a right-length line whose dates parse is always accepted, because the validation result is dropped |
| RequestCheckout.MarshalLength | request/checkout.go:38-75 | every encoding has at least 52 runes |
| RequestCheckout.RoundTrip | request/checkout.go:38-135 | a valid message decodes to itself, with sequence 0 when error detection is off |
| RequestCheckout.AcceptsInvalid | request/checkout.go:129-132 | a line without AO decodes to a message with no institution, which fails validation |
| RequestCheckout.BlankCodes | request/checkout.go:89 | a coded part of blanks carries no AO |
| RequestEndPatronSession.Marshal | request/endPatronSession.go:30-53 | `35`, the date at runes 2-19, then the coded fields, epilogue and terminator |
| RequestEndPatronSession.Unmarshal | request/endPatronSession.go:55-94 | under 52 runes or another code is rejected; otherwise a line whose date parses is accepted whatever validation says |
| RequestEndPatronSession.RoundTrip | request/endPatronSession.go:30-94 | a valid message decodes to itself exactly when its encoding reaches 52 runes, and is rejected otherwise |
| RequestEndPatronSession.ShortEncodingRejected | request/endPatronSession.go:59-61 | a valid message whose encoding has 29 runes is rejected by its own decoder |
| RequestFeePaid.Marshal | request/feePaid.go:36-71 | `37`, the date at runes 2-19, fee and payment types as `%02d` at 20-23, currency at 24-26, then the coded fields |
| RequestFeePaid.Unmarshal | request/feePaid.go:73-128 | under 36 runes or another code is rejected; a non-numeric fee type is an error; parsable prefix values are accepted and read back |
| RequestFeePaid.MarshalLength | request/feePaid.go:36-71 | a valid message encodes to at least 36 runes |
| RequestFeePaid.RoundTrip | request/feePaid.go:36-128 | a valid message decodes to itself, with sequence 0 when error detection is off |
| RequestHold.Marshal | request/hold.go:42-91 | `15`, HoldMode at rune 2, the date at runes 3-20, then the conditional coded fields, epilogue and terminator |
| RequestHold.Decode | request/hold.go:93-156 | the decoded hold mode and date are runes 2 and 3-20 |
| RequestHold.Unmarshal | request/hold.go:93-164 | under 27 runes or another code is rejected; a decoded message passes validation, including the `+`/`-`/`*` hold mode |
| RequestHold.MarshalDecodes | request/hold.go:42-156 | decoding an encoding gives the message, before validation |
| RequestHold.MarshalLength | request/hold.go:42-91 | a valid message encodes to at least 30 runes |
| RequestHold.RoundTrip | request/hold.go:42-164 | a valid message decodes to itself, with sequence 0 when error detection is off |
| RequestItemInfo.Marshal | request/itemInfo.go:29-48 | `17`, the date at runes 2-19, then AO, AB and optional AC, the epilogue and terminator |
| RequestItemInfo.Unmarshal | request/itemInfo.go:50-88 | under 29 runes or another code is rejected; any such line whose date parses is accepted |
| RequestItemInfo.MarshalLength | request/itemInfo.go:29-48 | a valid message encodes to at least 29 runes |
| RequestItemInfo.RoundTrip | request/itemInfo.go:29-88 | a valid message decodes to itself, with sequence 0 when error detection is off |
| RequestItemStatusUpdate.Marshal | request/itemStatusUpdate.go:32-53 | `19`, the date at runes 2-19, then AO, AB, optional AC and CH, the epilogue and terminator |
| RequestItemStatusUpdate.Unmarshal | request/itemStatusUpdate.go:55-94 | under 29 runes or another code is rejected; any such line whose date parses is accepted |
| RequestItemStatusUpdate.MarshalLength | request/itemStatusUpdate.go:32-53 | a valid message encodes to at least 29 runes |
| RequestItemStatusUpdate.RoundTrip | request/itemStatusUpdate.go:32-94 | a valid message decodes to itself, with sequence 0 when error detection is off |
| RequestItemStatusUpdate.AcceptsMissingProperties | request/itemStatusUpdate.go:83-91 | a line without CH decodes with empty item properties, which validation would refuse |
| RequestItemStatusUpdate.NoProperties | request/itemStatusUpdate.go:59-67 | a coded part with only AO and AB carries no CH |
| RequestPatronEnable.Marshal | request/patronEnable.go:30-53 | `25`, the date at runes 2-19, then the coded fields, epilogue and terminator |
| RequestPatronEnable.Unmarshal | request/patronEnable.go:55-94 | under 52 runes or another code is rejected; otherwise a line whose date parses is accepted |
| RequestPatronEnable.RoundTrip | request/patronEnable.go:30-94 | a valid message decodes to itself exactly when its encoding reaches 52 runes, and is rejected otherwise |
| RequestPatronEnable.ShortEncodingRejected | request/patronEnable.go:59-61 | a valid message whose encoding has 29 runes is rejected by its own decoder |
| RequestPatronInfo.Marshal | request/patronInfo.go:35-65 | `63`, Language `%03d` at runes 2-4, the date at 5-22, the 10-rune summary at 23-32, then the coded fields |
| RequestPatronInfo.Decode | request/patronInfo.go:67-120 | a bad language is that error; the decoded summary is read from runes 23-28 only |
| RequestPatronInfo.Unmarshal | request/patronInfo.go:67-145 | under 36 runes or another code is rejected; a decoded message is valid, so its summary has at most one flag set |
| RequestPatronInfo.OneCategory | request/patronInfo.go:125-128 | no decoded message has two summary flags set |
| RequestPatronInfo.ValidNormal | request/patronInfo.go:54-57 | dropping an unwritten BP/BQ range keeps a message valid |
| RequestPatronInfo.MarshalSummary | request/patronInfo.go:41-104 | the summary runes of an encoding decode to the summary |
| RequestPatronInfo.ReadRange | request/patronInfo.go:54-57 | BP and BQ read back the item range when it was written, and 0 otherwise |
| RequestPatronInfo.MarshalDecodes | request/patronInfo.go:35-120 | decoding an encoding gives the message with its unwritten range zeroed |
| RequestPatronInfo.MarshalLength | request/patronInfo.go:35-65 | a valid message encodes to at least 41 runes |
| RequestPatronInfo.RoundTrip | request/patronInfo.go:35-145 | a valid message decodes to itself once BP/BQ are dropped when StartItem is 0 or EndItem is below StartItem |
| RequestPatronStatus.Marshal | request/patronStatus.go:29-48 | `23`, Language `%03d` at runes 2-4, the date at 5-22, then AO, AA, AC, AD always |
| RequestPatronStatus.Unmarshal | request/patronStatus.go:50-94 | under 35 runes or another code is rejected; a bad language is that error; a decoded message is valid |
| RequestPatronStatus.MarshalLength | request/patronStatus.go:29-48 | a valid message encodes to at least 37 runes |
| RequestPatronStatus.RoundTrip | request/patronStatus.go:29-94 | a valid message decodes to itself, with sequence 0 when error detection is off |
| RequestRenew.Marshal | request/renew.go:38-81 | `29`, two Y/N flags at runes 2-3, dates at 4-21 and 22-39, then the coded fields, epilogue and terminator |
| RequestRenew.Unmarshal | request/renew.go:83-137 | under 46 runes or another code is rejected; any such line whose dates parse is accepted |
| RequestRenew.MarshalLength | request/renew.go:38-81 | a valid message encodes to at least 46 runes |
| RequestRenew.RoundTrip | request/renew.go:38-137 | a valid message decodes to itself, with sequence 0 when error detection is off |
| RequestRenew.AcceptsNoItem | request/renew.go:131-149 | a message with neither ItemID nor TitleID breaks the "one of them" rule, yet round-trips |
| RequestRenewAll.Marshal | request/renewAll.go:32-59 | `65`, the date at runes 2-19, then AO, AA, optional AD, AC and BO, the epilogue and terminator |
| RequestRenewAll.Unmarshal | request/renewAll.go:61-104 | under 26 runes or another code is rejected; a decoded message is valid |
| RequestRenewAll.MarshalLength | request/renewAll.go:32-59 | a valid message encodes to at least 26 runes |
| RequestRenewAll.RoundTrip | request/renewAll.go:32-104 | a valid message decodes to itself, with sequence 0 when error detection is off |
| RequestSCLogin.Marshal | request/scLogin.go:29-49 | `93`, the two algorithm numbers in decimal at runes 2 and 3, then CN, CO, optional CP |
| RequestSCLogin.Unmarshal | request/scLogin.go:51-92 | under 5 runes or another code is rejected; a non-digit at rune 2 or 3 is an error; a decoded message is valid |
| RequestSCLogin.Digit | request/scLogin.go:18-19 | a number in 0..9 prints as one rune and parses back |
| RequestSCLogin.RoundTrip | request/scLogin.go:29-92 | a valid message decodes to itself, with sequence 0 when error detection is off |
| RequestSCStatus.Marshal | request/scStatus.go:25-39 | `99`, the status digit, MaxPrintWidth `%03d`, the 4-rune version, then the epilogue directly and the terminator |
| RequestSCStatus.Unmarshal | request/scStatus.go:41-74 | under 10 runes or another code is rejected; 10-12 runes is an index fault at rune 12; the sequence is read from rune 12 |
| RequestSCStatus.MarshalSeqNum | request/scStatus.go:53-56 | with error detection, rune 12 of an encoding is its sequence digit |
| RequestSCStatus.MarshalBareLength | request/scStatus.go:25-39 | without error detection a valid message encodes to 11 runes |
| RequestSCStatus.RoundTrip | request/scStatus.go:25-82 | with error detection a valid message decodes to itself; without it decoding its own encoding is an index fault |
| ResponseACSStatus.FlagBits | response/acsStatus.go:51-56 | the six status flags, in the order they are written |
| ResponseACSStatus.ReadFlagText | response/acsStatus.go:51-56 | runes 2-7 read back as the six flags |
| ResponseACSStatus.Marshal | response/acsStatus.go:46-91 | the 36-rune prefix, then AO and BX always, the optional fields, the epilogue and terminator |
| ResponseACSStatus.Decode | response/acsStatus.go:93-160 | flags from runes 2-7, timeout and retries from 8-10 and 11-13, the date from 14-31, the version from 32-35 |
| ResponseACSStatus.Unmarshal | response/acsStatus.go:93-174 | under 42 runes or another code is rejected; a decoded message is valid, so its version is `2.00` |
| ResponseACSStatus.MarshalDecodes | response/acsStatus.go:46-160 | decoding an encoding gives the message, before validation |
| ResponseACSStatus.MarshalLength | response/acsStatus.go:46-91 | a valid message encodes to at least 42 runes starting with `98` |
| ResponseACSStatus.RoundTrip | response/acsStatus.go:46-174 | a valid message decodes to itself, with sequence 0 when error detection is off |
| ResponseCheckin.ReadFlagText | response/checkin.go:46-49 | runes 2-5 read back as Ok and the three flags |
| ResponseCheckin.Marshal | response/checkin.go:41-89 | `10`, the four flags at runes 2-5, the date at 6-23, then the coded fields, epilogue and terminator |
| ResponseCheckin.Decode | response/checkin.go:91-140 | the flags and date are read from runes 2-23 |
| ResponseCheckin.Unmarshal | response/checkin.go:91-157 | under 30 runes or another code is rejected; a decoded message is valid |
| ResponseCheckin.MarshalDecodes | response/checkin.go:41-140 | decoding an encoding gives the message, before validation |
| ResponseCheckin.MarshalLength | response/checkin.go:41-89 | a valid message encodes to at least 37 runes |
| ResponseCheckin.RoundTrip | response/checkin.go:41-157 | a valid message decodes to itself, with sequence 0 when error detection is off |
| ResponseCheckout.ReadFlagText | response/checkout.go:49-52 | runes 2-5 read back as Ok, RenewalOk, MagneticMedia and Desensitize |
| ResponseCheckout.Marshal | response/checkout.go:45-100 | the code (`12`, or `30` for Renew), the flags at runes 2-5, the date at 6-23, then the coded fields |
| ResponseCheckout.Decode | response/checkout.go:102-168 | Ok and the date are read from rune 2 and runes 6-23 |
| ResponseCheckout.Unmarshal | response/checkout.go:102-189 | under 39 runes or another code is rejected; a decoded message is valid |
| ResponseCheckout.MarshalDecodes | response/checkout.go:45-168 | decoding an encoding gives the message, before validation |
| ResponseCheckout.CodedLeast | response/checkout.go:54-58 | the four always-written required fields take at least 16 runes |
| ResponseCheckout.MarshalLength | response/checkout.go:45-100 | a valid message encodes to at least 41 runes |
| ResponseCheckout.RoundTrip | response/checkout.go:45-189 | a valid message decodes to itself under code `12` and under the Renew code `30`, with sequence 0 when error detection is off |
| ResponseEndSession.Marshal | response/endSession.go:31-54 | `36`, the Y/N flag at rune 2, the date at 3-20, then the coded fields, epilogue and terminator |
| ResponseEndSession.Decode | response/endSession.go:56-91 | the flag and date are read from rune 2 and runes 3-20 |
| ResponseEndSession.Unmarshal | response/endSession.go:56-106 | under 27 runes or another code is rejected; a decoded message is valid |
| ResponseEndSession.MarshalDecodes | response/endSession.go:31-91 | decoding an encoding gives the message, before validation |
| ResponseEndSession.MarshalLength | response/endSession.go:31-54 | a valid message encodes to at least 30 runes |
| ResponseEndSession.RoundTrip | response/endSession.go:31-106 | a valid message decodes to itself, with sequence 0 when error detection is off |
| ResponseFeePaid.Marshal | response/feePaid.go:32-59 | `38`, the Y/N flag at rune 2, the date at 3-20, then the coded fields, epilogue and terminator |
| ResponseFeePaid.Decode | response/feePaid.go:61-97 | the flag and date are read from rune 2 and runes 3-20 |
| ResponseFeePaid.Unmarshal | response/feePaid.go:61-112 | under 27 runes or another code is rejected; a decoded message is valid |
| ResponseFeePaid.MarshalDecodes | response/feePaid.go:32-97 | decoding an encoding gives the message, before validation |
| ResponseFeePaid.MarshalLength | response/feePaid.go:32-59 | a valid message encodes to at least 30 runes |
| ResponseFeePaid.RoundTrip | response/feePaid.go:32-112 | a valid message decodes to itself, with sequence 0 when error detection is off |
| ResponseHold.ReadFlagText | response/hold.go:42-43 | runes 2-3 read back as Ok and Available |
| ResponseHold.Marshal | response/hold.go:37-88 | `16`, the flags at runes 2-3, the date at 4-21, then the conditional coded fields, epilogue and terminator |
| ResponseHold.Decode | response/hold.go:90-150 | the flags and date are read from runes 2-21 |
| ResponseHold.Unmarshal | response/hold.go:90-165 | under 22 runes or another code is rejected; a decoded message is valid |
| ResponseHold.BareLine | response/hold.go:103-141 | a 22-rune line decodes with every coded field absent and queue position -1 |
| ResponseHold.MarshalDecodes | response/hold.go:37-150 | decoding an encoding gives the message, including queue position 0 and -1 |
| ResponseHold.RoundTrip | response/hold.go:37-165 | a valid message decodes to itself, with sequence 0 when error detection is off |
| ResponseItemInfo.Marshal | response/itemInfo.go:49-120 | `18`, three `%02d` numbers at runes 2-7, the date at 8-25, then the conditional coded fields |
| ResponseItemInfo.PrefixNumbers | response/itemInfo.go:54-56 | the three two-digit numbers read back |
| ResponseItemInfo.Decode | response/itemInfo.go:122-209 | the numbers and date are read from runes 2-25 |
| ResponseItemInfo.Unmarshal | response/itemInfo.go:122-232 | under 32 runes or another code is rejected; a decoded message is valid |
| ResponseItemInfo.MarshalDecodes | response/itemInfo.go:49-209 | decoding an encoding gives the message, including hold-queue length -1 |
| ResponseItemInfo.CodedLeast | response/itemInfo.go:59-120 | the required coded fields take at least 8 runes |
| ResponseItemInfo.MarshalLength | response/itemInfo.go:49-120 | a valid message encodes to at least 35 runes |
| ResponseItemInfo.RoundTrip | response/itemInfo.go:49-232 | a valid message, whose due date is required, decodes to itself, with sequence 0 when error detection is off |
| ResponseItemInfo.EmptyDueDateClean | response/itemInfo.go:63-65 | a message without a due date writes no AH field, and its coded fields stay free of the delimiter |
| ResponseItemInfo.EmptyDueDateCodes | response/itemInfo.go:49-120 | such an encoding still reaches the 32-rune minimum, reads AH back as empty and reads every other field back |
| ResponseItemInfo.EmptyDueDateDecodes | response/itemInfo.go:122-209 | such an encoding decodes, to a message whose due date is empty |
| ResponseItemInfo.EmptyDueDateRejected | response/itemInfo.go:27 | a message valid but for its empty due date is written without AH, and decoding its own encoding fails validation (response/itemInfo.go:63-65, 210-213) |
| ResponseItemStatusUpdate.Marshal | response/itemStatusUpdate.go:32-63 | `20`, the 0/1 flag at rune 2, the date at 3-20, then the coded fields, epilogue and terminator |
| ResponseItemStatusUpdate.Decode | response/itemStatusUpdate.go:65-101 | the flag and date are read from rune 2 and runes 3-20 |
| ResponseItemStatusUpdate.Unmarshal | response/itemStatusUpdate.go:65-116 | under 24 runes or another code is rejected; a decoded message is valid |
| ResponseItemStatusUpdate.MarshalDecodes | response/itemStatusUpdate.go:32-101 | decoding an encoding gives the message, before validation |
| ResponseItemStatusUpdate.MarshalLength | response/itemStatusUpdate.go:32-63 | a valid message encodes to at least 26 runes |
| ResponseItemStatusUpdate.RoundTrip | response/itemStatusUpdate.go:32-116 | a valid message decodes to itself, with sequence 0 when error detection is off |
| ResponsePatronEnable.Marshal | response/patronEnable.go:36-65 | `26`, the 14-rune patron status, Language `%03d` at runes 16-18, the date at 19-36, then the coded fields |
| ResponsePatronEnable.Decode | response/patronEnable.go:67-119 | the status, language and date are read from runes 2-36 |
| ResponsePatronEnable.Unmarshal | response/patronEnable.go:67-134 | under 46 runes or another code is rejected; a decoded message is valid |
| ResponsePatronEnable.MarshalDecodes | response/patronEnable.go:36-119 | decoding an encoding gives the message, before validation |
| ResponsePatronEnable.MarshalLength | response/patronEnable.go:36-65 | a valid message encodes to at least 46 runes |
| ResponsePatronEnable.RoundTrip | response/patronEnable.go:36-134 | a valid message decodes to itself, with sequence 0 when error detection is off |
| ResponsePatronInfo.Marshal | response/patronInfo.go:58-163 | the 61-rune prefix, then the coded fields with one segment per non-empty list element, then the epilogue and terminator |
| ResponsePatronInfo.Limits | response/patronInfo.go:239-258 | an absent BZ, CA or CB leaves the limit at 0; a non-numeric one is an error |
| ResponsePatronInfo.ListsOf | response/patronInfo.go:275-280 | the six lists are taken from the extracted repeatable fields, and are empty when no segment matches |
| ResponsePatronInfo.HeadOf | response/patronInfo.go:190-226 | the status, language, date and six counts of the prefix parse |
| ResponsePatronInfo.Decode | response/patronInfo.go:165-290 | the status, language, date and counts come from runes 2-60; the lists come from extraction at rune 70 |
| ResponsePatronInfo.Unmarshal | response/patronInfo.go:165-306 | under 73 runes or another code is rejected; a decoded message is valid, and its lists are read from rune 70 onward |
| ResponsePatronInfo.ValidFits | response/patronInfo.go:19-56 | a valid message's numbers fit their fixed widths |
| ResponsePatronInfo.ListsRead | response/patronInfo.go:106-135 | extraction from rune 70 reads back each list's non-empty elements after the stray tail of the institution field |
| ResponsePatronInfo.MarshalDecodes | response/patronInfo.go:58-290 | decoding an encoding gives the message plus whatever list segments the stray institution tail carries |
| ResponsePatronInfo.CodedLeast | response/patronInfo.go:73-75 | the always-written fields take at least 11 runes |
| ResponsePatronInfo.MarshalLength | response/patronInfo.go:58-163 | a valid message encodes to at least 73 runes starting with `64` |
| ResponsePatronInfo.RoundTrip | response/patronInfo.go:58-306 | a valid message whose institution tail holds no list tag decodes to itself with empty list elements dropped |
| ResponsePatronInfo.LeadText | response/patronInfo.go:73-75 | the coded part starts `AO` + institution + delimiter, followed by AA and AE |
| ResponsePatronInfo.StrayOfLead | response/patronInfo.go:188 | the text skipped into by starting at rune 70 is the institution's tail followed by the next fields |
| ResponsePatronInfo.ExampleStray | response/patronInfo.go:188 | for institution `inst001ASfoo`, the stray text is `ASfoo|AAP|AEN` |
| ResponsePatronInfo.StrayHoldItem | response/patronInfo.go:188 | an institution `inst001ASfoo` makes the decoder report a hold item `foo` |
| ResponsePatronStatus.Marshal | response/patronStatus.go:39-76 | `24`, the 14-rune status, Language at runes 16-18, the date at 19-36, then the coded fields |
| ResponsePatronStatus.Decode | response/patronStatus.go:78-135 | the status, language and date are read from runes 2-36 |
| ResponsePatronStatus.Unmarshal | response/patronStatus.go:78-154 | under 46 runes or another code is rejected; a decoded message is valid |
| ResponsePatronStatus.MarshalDecodes | response/patronStatus.go:39-135 | decoding an encoding gives the message, before validation |
| ResponsePatronStatus.MarshalLength | response/patronStatus.go:39-76 | a valid message encodes to at least 46 runes |
| ResponsePatronStatus.RoundTrip | response/patronStatus.go:39-154 | a valid message decodes to itself, with sequence 0 when error detection is off |
| ResponseRenewAll.ValidFits | response/renewAll.go:15-32 | a valid message's counts fit their four-digit widths |
| ResponseRenewAll.Marshal | response/renewAll.go:34-74 | `66`, Ok at rune 2, the two `%04d` counts at 3-10, the date at 11-28, then AO, the list segments and the optional fields |
| ResponseRenewAll.Decode | response/renewAll.go:76-130 | Ok, the counts and the date come from runes 2-28; the lists come from extraction at rune 32 |
| ResponseRenewAll.Unmarshal | response/renewAll.go:76-145 | under 32 runes or another code is rejected; a decoded message is valid, and the counts are never checked against the lists |
| ResponseRenewAll.StrayIsID | response/renewAll.go:99 | starting extraction at rune 32 skips only the first rune of the institution |
| ResponseRenewAll.MarshalDecodes | response/renewAll.go:34-130 | decoding an encoding gives the message plus whatever list segments the institution tail carries |
| ResponseRenewAll.MarshalLength | response/renewAll.go:34-74 | a valid message encodes to at least 32 runes starting with `66` |
| ResponseRenewAll.RoundTrip | response/renewAll.go:34-145 | a valid message whose institution tail holds no list tag decodes to itself with empty list elements dropped |
| ResponseRenewAll.StrayRenewedItem | response/renewAll.go:99 | an institution `xBMfoo` makes the decoder report a renewed item `foo` |
| ResponseSCLogin.Marshal | response/scLogin.go:23-32 | `94` + 0/1, then the epilogue when error detection is on, then the terminator |
| ResponseSCLogin.Unmarshal | response/scLogin.go:34-71 | succeeds exactly on lines of at least 3 runes starting `94`; Ok is `ParseBool` of rune 2; a 3-rune line has sequence 0 |
| ResponseSCLogin.SequenceDigit | response/scLogin.go:46-61 | the one-rune AY value always gives a sequence in 0..9 |
| ResponseSCLogin.RoundTrip | response/scLogin.go:23-79 | a valid message decodes to itself, with sequence 0 when error detection is off |
| ResponseSCResend.Marshal | response/scResend.go:17-26 | without error detection `96` + terminator; with it `96AZ`, the checksum of `96AZ` and the terminator |
| ResponseSCResend.Unmarshal | response/scResend.go:28-40 | succeeds if and only if the line has at least two runes and starts with `96` |
| ResponseSCResend.RoundTrip | response/scResend.go:17-40 | every encoding decodes |
| Server.Globals.constructor | utils/utils.go:19 | the package globals start unset |
| Server.DefaultServerConfig | server/server.go:65-78 | the default host, port, IDs, characters and timeout |
| Server.NormalHost | server/server.go:93-96 | `localhost` in any letter case becomes `127.0.0.1`; other hosts are kept |
| Server.LocalhostAnyCase | server/server.go:94 | for ASCII hosts, the host counts as localhost if and only if each rune matches `localhost` in either case |
| Server.Build | server/server.go:80-179 | a timeout below 1 is the first error; every error is a configuration error; on success the settings copy the configuration with the host normalised and no handlers |
| Server.NewServer | server/server.go:80-179 | returns what `Build` returns; on success writes the escape pairs and both validators for the delimiter and terminator; on error leaves the globals untouched |
| Server.Accepted | server/server.go:81-131 | a configuration is accepted if and only if no guard fails |
| Server.FirstFailing | server/server.go:81-131 | the error reported is from a failing guard with no earlier guard failing |
| Server.TerminatorFirst | server/server.go:106-131 | a field holding the terminator is never reported for the delimiter |
| Server.CredentialsClean | server/server.go:106-131 | an accepted configuration has neither separator in its institution, library, username or password |
| Server.DefaultAccepted | server/server.go:65-179 | the default configuration is accepted when the address parsers accept 127.0.0.1:9000 |

## Left out

- Receivers: every `Unmarshal` is modelled as a function that returns a fresh message or an error. It does not model how the Go receiver is updated field by field, nor the partly updated receiver left behind on error. The exception is `SupportedMessages.Unmarshal`, whose receiver matters and is a parameter.
- `required` tags: modelled as "non-zero date" or "non-empty string". The `go-playground/validator` library is not modelled. A validation error is the single error `ValidationFailed`, without the library's message text.
- `strconv.Atoi`: modelled on unbounded integers. Its 64-bit range error is not modelled.
- `time.Parse`: modelled as 8 digits, four blanks and 6 digits read into six numbers, with month 1-12, day 1-31, hour below 24, minute and second below 60 (`Dates.InRange`). Go's per-month day check is not modelled: `20230230    000000` is refused by `time.Parse` and accepted by `Dates.Parse`. The leniencies of Go's layout parser are not modelled either: a run of blanks of any other non-zero length or a fractional second after the seconds, as in `20240101  123456.5`, parses in Go and fails in the model. Time zones are not modelled. The zero `time.Time` is `Dates.Zero`, 0001-01-01 00:00:00.
- Dates.Format: is modelled for every Go time, but the message datatypes hold `Dates.Date`, which is whole seconds in years 0..9999. Go's `time.Time` also carries nanoseconds and years outside that range. `Format` drops the fraction without a word (`Dates.FractionLost`): a message built from an untruncated `time.Now()` does not decode back to itself. A year outside 0..9999 prints in five or more runes (`Dates.WideYearRefused`), which shifts every later offset of the line. The codec round trips therefore hold only for the dates `Dates.Date` admits.
- Strings: a Dafny `string` holds only Unicode scalar values. A Go line can carry invalid UTF-8, which `[]rune` conversion and the checksum loop read as U+FFFD. The model does not represent such bytes.
- `fmt` verbs: modelled by explicit padding functions. A `%02d`/`%03d`/`%04d` value wider than its field shifts every later offset. The round trips therefore require the widths that the struct tags already demand.
- `terminator` argument of every `Unmarshal`: never used by the Go decoders, and omitted from the model.
- Checksum on decode: no decoder verifies AZ, and the model adds no check.
- Dropped validation results: request Checkout, EndPatronSession, FeePaid, ItemInfo, ItemStatusUpdate, PatronEnable and Renew drop the `Validate` result. Their `Unmarshal` promises no validity. `RequestCheckout.AcceptsInvalid`, `RequestItemStatusUpdate.AcceptsMissingProperties` and `RequestRenew.AcceptsNoItem` exhibit the consequence.
- RequestEndPatronSession.RoundTrip: holds only when the encoding reaches the decoder's 52-rune minimum, and states the rejection otherwise.
- RequestPatronEnable.RoundTrip: likewise holds only when the encoding reaches the 52-rune minimum.
- RequestSCStatus.Unmarshal: the Go decoder faults when reading rune 12 of a 10-12 rune line. The model returns `Err(IndexOutOfRange)` for that fault.
- RequestSCStatus.RoundTrip: without error detection the result is that fault, not the message.
- RequestPatronInfo.RoundTrip: returns `Normal(m)`. Marshal drops BP/BQ unless StartItem > 0 and EndItem >= StartItem, so such a range decodes as 0/0.
- ResponsePatronInfo.RoundTrip: requires `StrayFree`. The institution's tail past rune 70 must hold no segment with a list tag, because repeatable fields are extracted from rune 70, inside the AO field. The result is `Written(m)`, whose lists have empty elements removed, since Marshal skips them. `MarshalDecodes` states the general case, stray items included.
- ResponseRenewAll.RoundTrip: the same `StrayFree`/`Written` form, for extraction from rune 32, which is inside AO.
- Response Renew: shares the datatype and the functions of response Checkout in `response_checkout.dfy`, selected by the `code` argument. The two Go files are identical apart from the code.
- `msgID`: the Go code takes the first two bytes of a line. The model computes the UTF-8 bytes of the line. A line shorter than two bytes is `Err(IndexOutOfRange)`, standing for the slice fault.
- Registry round trip: not one lemma. It is `RequestRegistry.Dispatch` or `ResponseRegistry.Dispatch` combined with each codec's `RoundTrip`.
- Package globals: `REPLACER` and the two `Validate` instances are the fields of the class `Server.Globals`. Each `InitValidator` is modelled as returning the bad-character string. `Escape.EscapeSIP` takes the replacer pairs as a parameter, which presumes `ConfigureEscapeCharacters` has run. In the Go code `REPLACER` is nil until then (utils/utils.go:19-23), and calling `EscapeSIP` before it panics. The model does not represent that panic.
- `strings.NewReplacer`: modelled only for one-rune old strings. These are the only ones `ConfigureEscapeCharacters` creates.
- `strings.ToLower` on the host: `Server.Lower` maps only the runes whose lower case is an ASCII letter (`A`-`Z`, U+212A Kelvin sign to `k`, U+0130 to `i`); other runes cannot lower-case into `localhost`. The host parsers `netip.ParseAddr` and `netip.ParseAddrPort` are function parameters.
- Server I/O: `ListenAndServe`, `handleConnection`, the `Handle*` setters, the `Settings` getters, `server/settings.go` and `server/handle.go` are not part of this model. They are sockets, goroutines, mutexes and callbacks.
- Validator set-up: every codec `Unmarshal` and `Valid` take the bad-character string `bad` as a parameter, which presumes `InitValidator` has run. In the Go code the package variable `Validate` is nil until then (request/request.go:12, response/response.go:12), and validating a message before `InitValidator` panics. The model does not represent that panic.
- `bufio.Scanner`: buffer growth and token limits are not modelled. `Scanner.Scan` is a plain loop over chunks.
