# oscope-scpi core, modelled in Dafny

This project models the deterministic core of the oscope-scpi client for
Keysight oscilloscopes:

- **The SCPI session.** The command prefix rule and the stripping of query
  replies. Parsing of the IEEE 488.2 `*IDN?` identity into manufacturer, model,
  serial and version. The dialect test `version > versionLegacy`, under Python
  3 ordering. The bounded error-queue drain `checkInstErrors`, with its
  two-form state machine (legacy `SYSTem:ERRor?` and modern
  `SYSTem:ERRor? STRing`).
- **Model resolution.** `getBestClass` and the constructor chains of the
  Keysight, DSO-X/MSO-X, MXR and EXR drivers. Together these fix the series, the
  channel count, the legacy threshold and the two channel lists.
- **Waveform download.** The channel checks of `waveformData` and the dispatch
  by dialect. The command sequence of the modern and the legacy downloader.
  Parsing of the 24-field modern and 10-number legacy preambles against their
  code tables. The centred sample window, the decoding of the binary block by
  element width and byte order, the time and value axes, and the digital bit
  lanes with their labels.
- **Command strings and tables.** Measurement, hardcopy, blanking, autoscale
  and annotation commands, the legacy colour names and the measurement unit
  table.
- **Statistics.** The parsing of the statistics table by the DSO-X and MXR
  drivers, and by the MSO-X 3000 driver as it is evidently meant to work. As
  written, the MSO-X 3000 driver raises AttributeError before it reads the
  table (see "## Findings").
- **MSO-X 3000 driver.** Its class lists, the old autoscale command and the
  per-sample CSV row formula.
- **Front end.** The output file naming of the command-line program
  `handleFilename`, and its `--annotate`/`--annocolor` consistency check.

The instrument is replaced by a script. A session (`Instrument.Scope`) holds
the list of replies it is still to receive and a log of the command strings it
has sent. Each transport call logs one command and consumes one reply. A reply
is a text line (`Answer`), a binary block, a list of numbers, a timeout or
another transport error; an exhausted script reads as a timeout. Python
exceptions are `Err` values of `Results.Error`. The byte order of the host, the
`HOME` directory, the timestamp text and the set of existing files are
parameters.

Modules follow the source: `Scpi` (scpi.py), `Profiles` (oscilloscope.py and
the constructors), `Waveform` and `Commands` (keysight.py), `Statistics`
(dso.py, mxr.py, MSOX3000.py), `Msox3000` (MSOX3000.py), `Filenames`
(oscope.py), and `Instrument`. `Instrument` holds the object with its fields:
the constructors, the wrappers, the drain loop and the downloads as methods,
each proved against a specification function. `Text` and `Results` hold the
Python string, number and exception semantics the rest relies on.

Where the prose description of the system and the code differ, the model
follows the code:

- The Keysight full channel list is `CHAN1`..`CHANn`, while its analog list is
  `"1"`..`"n"` (keysight.py:68-74). A Keysight scope therefore accepts `"CHAN1"`
  but not `"1"` for a waveform download.
- A model string without the hyphen, such as `MSOX3034A`, matches no family
  prefix and gets the generic Keysight class (`Profiles.NoHyphenIsGeneric`).
- The centre of the window, `midpt`, is computed from the preamble over the
  reals, then truncated as `int()` does. It is not an input.
- The default channel is the integer 1. `waveformData` refuses it, because an
  integer is never in the list of channel strings.
- A transport error inside a block transfer ends the process. It is modelled
  as `Err(ProcessExit)`.

## Model

| member | source | states |
|---|---|---|
| Text.Upper | oscope_scpi/oscilloscope.py:119 | every character of the result is the ASCII upper case of the one at the same position |
| Text.RStrip | oscope_scpi/scpi.py:147 | the result is a prefix of the text; the characters dropped all belong to the strip set, and the last one kept does not |
| Text.ParseInt | oscope_scpi/keysight.py:623-625 | int() of a string accepts only non-blank text (optional whitespace, optional sign, digits) |
| Text.IntToString | oscope_scpi/keysight.py:456 | str() of an integer is its digits, with a leading '-' exactly when it is negative |
| Text.IntToStringParses | oscope_scpi/keysight.py:456 | str() of any integer reads back through int() as that integer |
| Text.NatToStringRoundTrip | oscope_scpi/keysight.py:456 | decimal printing of a natural number is inverted by reading its digits |
| Text.ParseFloatDecimal | oscope_scpi/scpi.py:413-416 | float("a.b") for digit strings a and b is a plus the fraction b |
| Text.Trunc | oscope_scpi/keysight.py:454 | int() of a real truncates toward zero, from above or below depending on the sign |
| Text.SplitFields | oscope_scpi/scpi.py:407 | str.split(sep) gives fields without the separator, and joining them restores the text |
| Text.Split | oscope_scpi/scpi.py:407 | str.split(sep) always gives at least one field |
| Scpi.PrefixCommand | oscope_scpi/scpi.py:131-132 | empty commands fail; '*' commands go unchanged; every other command gets the session prefix before it |
| Scpi.StripReply | oscope_scpi/scpi.py:147 | the reply loses exactly its trailing read_strip characters |
| Scpi.StripReplyIdempotent | oscope_scpi/scpi.py:147 | stripping twice equals stripping once |
| Scpi.StripReplyKeepsClean | oscope_scpi/scpi.py:147 | a reply that does not end in a strip character is unchanged |
| Scpi.Newer | oscope_scpi/scpi.py:556 | the comparison succeeds iff both sides are numbers or both tuples; numbers compare as reals; a tuple beats () iff it is non-empty |
| Scpi.InitialIsLegacy | oscope_scpi/scpi.py:79-80 | a fresh session (0.0 > 0.0) is in the legacy dialect |
| Scpi.DialectExamples | oscope_scpi/keysight.py:90 | firmware 2.65 is legacy and 3.00 is modern under 2.99; 7.20 is legacy under 9.999 |
| Scpi.ParseVersion | oscope_scpi/scpi.py:413-421 | a tuple version is non-empty and its last part holds no newline |
| Scpi.VersionWithoutPoint | oscope_scpi/scpi.py:413-421 | a field without '.' never yields a number; it yields the one-part tuple with newlines removed |
| Scpi.VersionOfTwoParts | oscope_scpi/scpi.py:413-421 | major.minor is float(major.minor) when that parses, else the tuple of both parts |
| Scpi.VersionOfParts | oscope_scpi/scpi.py:413-421 | a version kept as a tuple has a last part without newline |
| Scpi.ParseIdn | oscope_scpi/scpi.py:407-411 | the parse succeeds iff the reply has at least four comma fields; the stored fields hold no comma |
| Scpi.IdnRoundTrip | oscope_scpi/scpi.py:407-416 | four comma-free fields joined by ',' parse back to those fields and the version of the fourth |
| Scpi.TupleVersionAlwaysNewer | oscope_scpi/scpi.py:417-421 | once a tuple version is read, every later dialect test picks the modern dialect |
| Scpi.ChannelStr | oscope_scpi/scpi.py:181-190 | an int or a numeric string becomes 'CHAN'+n; None, lists and non-numeric strings come back unchanged |
| Scpi.ChannelStrOfDigits | oscope_scpi/scpi.py:181-190 | "n" and n name the same channel |
| Scpi.ChannelStrIdempotent | oscope_scpi/scpi.py:181-190 | applying channelStr twice equals applying it once |
| Scpi.ChanNumber | oscope_scpi/scpi.py:216-225 | 0 without a leading 'CHAN'; otherwise the digit after it, failing past the end or on a non-digit |
| Scpi.ChanNumberRoundTrip | oscope_scpi/scpi.py:216-225 | a one-digit channel survives channelStr and _chanNumber, whatever follows |
| Scpi.OnOrOffIgnoresTrailing | oscope_scpi/scpi.py:192-214 | _onORoff reads only two characters and _1OR0 only one; "OFF" and "0" are false |
| Scpi.EntryForm | oscope_scpi/scpi.py:249-257 | a set legacy flag forces the legacy form; the modern form is used iff the flag is clear and version > versionLegacy |
| Scpi.ClassifyExactly | oscope_scpi/scpi.py:266-311 | sentinel, switch, fault and entry replies are characterised in both directions for each form |
| Scpi.NextForm | oscope_scpi/scpi.py:266-283 | only a switch reply changes the form |
| Scpi.DrainFrom | oscope_scpi/scpi.py:261 | the loop makes at most ErrorQueue reads, at least one when reads remain, the first in the current form |
| Scpi.DrainBounded | oscope_scpi/scpi.py:261 | one checkInstErrors call reads at least once and at most 30 times |
| Scpi.DrainStep | oscope_scpi/scpi.py:261-311 | a read that does not end the loop is followed by the loop from the next form |
| Scpi.DrainFormsFollowKinds | oscope_scpi/scpi.py:266-301 | each read uses the form the previous read left, and the final form is the one the last read left |
| Scpi.DrainErrorsExactly | oscope_scpi/scpi.py:284-313 | the result is true iff an error entry or a fault was seen |
| Scpi.DrainEndsOnlyLast | oscope_scpi/scpi.py:303-311 | only the last read can end the loop |
| Scpi.DrainRunsOut | oscope_scpi/scpi.py:261 | a loop no read ended used all its remaining reads |
| Scpi.DrainMonotone | oscope_scpi/scpi.py:303-304 | errors once noted stay noted |
| Scpi.DrainCommandsAt | oscope_scpi/scpi.py:265 | the i-th command sent is the prefix and the query of the i-th read's form |
| Scpi.ObserveNoError | oscope_scpi/scpi.py:289-291 | a terminated 'no error' reply is seen as its text |
| Scpi.FirstSentinelStops | oscope_scpi/scpi.py:305-306 | a first 'no error' reply ends the drain after one read, with no error |
| Scpi.ModernTimeoutFallsBack | oscope_scpi/scpi.py:266-283 | a modern timeout is retried in the legacy form without counting as an error |
| Scpi.LegacyCodeSwitchesToModern | oscope_scpi/scpi.py:297-301 | a bare code to the legacy query switches to the modern form without counting as an error |
| Scpi.EndlessErrorsUseWholeQueue | oscope_scpi/scpi.py:261-306 | a device reporting only errors is read the whole queue long and the result is true |
| Profiles.BestClass | oscope_scpi/oscilloscope.py:118-120 | the receiver is kept iff the manufacturer does not start with KEYSIGHT or AGILENT |
| Profiles.NumberedAt | oscope_scpi/oscilloscope.py:80 | the i-th name of a numbered group carries the number lo+i |
| Profiles.AnalogMembership | oscope_scpi/oscilloscope.py:80 | "k" is an analog channel iff 1 <= k <= n |
| Profiles.KeysightListsAreChannelStr | oscope_scpi/keysight.py:68-74 | the Keysight full list is channelStr of 1..n; the analog list stays "1".."n" |
| Profiles.MSOXAddsPods | oscope_scpi/dso.py:104-111 | MSOX appends POD1 and POD2 to the full list only, and Keysight has no pods |
| Profiles.MXRListLayout | oscope_scpi/mxr.py:56-73 | the MXR full list is CHAN, DIFF, COMM, FUNC1..16, HIST, WMEM1..8, BUS1..4, POD1, POD2, PODALL in order; 3n+32 names |
| Profiles.EXRListsEqualMXR | oscope_scpi/exr.py:56-66 | EXR lists and channel count equal MXR's; only the series differs |
| Profiles.ThresholdByClass | oscope_scpi/dso.py:183-265 | only the T-suffix classes raise the legacy threshold to 9.999; the rest keep 2.99 |
| Profiles.AnalogMatchesChannelCount | oscope_scpi/oscilloscope.py:80 | every built class's analog list is "1".."maxChannel" |
| Profiles.MXRFamilyBySuffix | oscope_scpi/oscilloscope.py:122-155 | MXR/EXR models get 8 channels with suffix 8A and 4 otherwise, and the family's series |
| Profiles.XSeriesNeeds3000Prefix | oscope_scpi/oscilloscope.py:175-228 | DSO-X/MSO-X models get a 3000 class only with the "3" prefix and an A/T suffix, and stay in their family |
| Profiles.ProfileAnalogCount | oscope_scpi/oscilloscope.py:80 | "k" is an analog channel of a built class iff 1 <= k <= its channel count |
| Profiles.NoHyphenIsGeneric | oscope_scpi/oscilloscope.py:229-237 | a model written without the hyphen falls through to the generic Keysight class |
| Waveform.FormatByChannel | oscope_scpi/keysight.py:306-319 | BINary iff a HIST source; BYTE iff exactly POD1/POD2; WORD otherwise, PODALL included |
| Waveform.FormatCommand | oscope_scpi/keysight.py:306-319 | the format command is always a WAVeform:FORMat command |
| Waveform.Code | oscope_scpi/keysight.py:402-427 | a coded field succeeds iff int() parses it to a code in the table; otherwise ValueError or KeyError |
| Waveform.UnitTablesAgree | oscope_scpi/keysight.py:332-392 | the three unit tables know the same eight codes |
| Waveform.Real | oscope_scpi/keysight.py:433-444 | float() of a field succeeds iff it parses, with that value |
| Waveform.ParsePreambleFields | oscope_scpi/keysight.py:394-444 | anything but 24 fields is ValueError; on success every code is in its table, 26 metadata entries show source and view |
| Waveform.PreambleCodes | oscope_scpi/keysight.py:402-427 | the six codes are looked up in metadata order and all lie in their tables |
| Waveform.PreambleMeta | oscope_scpi/keysight.py:402-427 | 26 entries, with source, view and format name in place |
| Waveform.PreambleNumbers | oscope_scpi/keysight.py:433-444 | the numbers keep the looked-up codes and form a valid preamble |
| Waveform.PreambleFieldsRoundTrip | oscope_scpi/keysight.py:394-400 | comma-free fields joined by ',' parse field by field |
| Waveform.UnknownFormatIsKeyError | oscope_scpi/keysight.py:402-404 | an unknown format code fails with KeyError |
| Waveform.MidPoint | oscope_scpi/keysight.py:454 | the midpoint fails (ZeroDivisionError) iff the x increment is zero |
| Waveform.WholeRecordWindow | oscope_scpi/keysight.py:447-452 | without points, or for a histogram, the read starts at sample 0 with no suffix |
| Waveform.WindowStart | oscope_scpi/keysight.py:454-455 | with points n, the start is midpoint - n // 2 |
| Waveform.WindowCentred | oscope_scpi/keysight.py:454-456 | a window of n >= 1 points holds the midpoint, and its suffix is " start,n" |
| Waveform.SuffixFields | oscope_scpi/keysight.py:456 | the suffix splits back into the two decimal integers |
| Waveform.FormatKind | oscope_scpi/keysight.py:475-501 | codes 1..5 give widths 1, 2, 4, 8 and a 32-bit float; ASCii raises RuntimeError, an unknown code KeyError |
| Waveform.DecodeEncodeSigned | oscope_scpi/keysight.py:479-521 | decoding a signed element of w bytes inverts encoding, in either byte order |
| Waveform.DecodeSigned | oscope_scpi/keysight.py:521 | a signed element of w bytes lies in the two's complement range of 8w bits |
| Waveform.Unpack | oscope_scpi/keysight.py:521-523 | unpacking succeeds iff the block holds whole elements, giving length / width of them |
| Waveform.UnpackEncodeInts | oscope_scpi/keysight.py:521 | a block written element by element in the host order unpacks to those elements |
| Waveform.DecodeEncodeInts | oscope_scpi/keysight.py:521 | cutting and decoding an encoded block gives the values back |
| Waveform.TimeAxis | oscope_scpi/keysight.py:531 | one time per sample |
| Waveform.TimeAxisUniform | oscope_scpi/keysight.py:531 | samples are one increment apart, and the reference sample of the record sits at the origin |
| Waveform.CentreSampleTime | oscope_scpi/keysight.py:454-457 | sample n // 2 of a centred window lies at the midpoint's time |
| Waveform.Volts | oscope_scpi/keysight.py:575 | one value per sample |
| Waveform.VoltsInvertible | oscope_scpi/keysight.py:575 | with a non-zero increment each raw value is recovered from its voltage |
| Waveform.VoltsMonotone | oscope_scpi/keysight.py:575 | with a positive increment scaling keeps the order of samples |
| Waveform.Bit | oscope_scpi/keysight.py:561 | (v >> ch) & 1 is 0 or 1 for any sign |
| Waveform.Lanes | oscope_scpi/keysight.py:559-561 | one lane per bit, each as long as the samples |
| Waveform.BitLanes | oscope_scpi/keysight.py:559-561 | the lane loop fills exactly the lanes of the specification |
| Waveform.BitsReconstruct | oscope_scpi/keysight.py:559-561 | the lanes of a sample, weighed by 2^ch, give the sample mod 2^n |
| Waveform.LanesSpellSample | oscope_scpi/keysight.py:559-561 | a sample that fits the lane count is spelled exactly by its lanes |
| Waveform.HighLanesOfBytesZero | oscope_scpi/keysight.py:732-751 | lanes 8 and above of unsigned bytes are all zero |
| Waveform.LaneLabels | oscope_scpi/keysight.py:563 | the header is Time then one label per lane |
| Waveform.LabelNames | oscope_scpi/keysight.py:563 | lane ch of pod p is labelled 'D' followed by (p-1)*bits+ch |
| Waveform.LaneLabelsDistinct | oscope_scpi/keysight.py:563 | distinct lanes of one pod get distinct labels |
| Waveform.PodLabelsDisjoint | oscope_scpi/keysight.py:551-563 | POD2's labels continue where POD1's end and never coincide with them |
| Waveform.LastDigit | oscope_scpi/keysight.py:556 | int(channel[-1]) succeeds iff the last character is a digit, with its value |
| Waveform.ModernY | oscope_scpi/keysight.py:535-577 | pods give the lanes, analog integer samples are scaled, and digital non-BUS non-POD sources fail as an unbound local |
| Waveform.DecodeModernShape | oscope_scpi/keysight.py:521-531 | a decoded trace has one time per element, spaced from the window's start, and the metadata gains the counts |
| Waveform.WordTraceRoundTrip | oscope_scpi/keysight.py:521-577 | a WORD analog trace of values written in the host order decodes to their voltages |
| Waveform.ParseLegacyPreamble | oscope_scpi/keysight.py:641-685 | it succeeds iff there are ten numbers whose truncated format and type are in the legacy tables; 14 metadata entries |
| Waveform.ByteValues | oscope_scpi/keysight.py:606-609 | unsigned bytes decode to 0..255, each equal to its byte |
| Waveform.LegacyY | oscope_scpi/keysight.py:726-757 | BUS is raw, pods are split into 16 or 8 lanes by the format code, analog is scaled to volts |
| Waveform.LegacyPodAllFails | oscope_scpi/keysight.py:734-736 | the legacy decoder fails on PODALL, whose last character is not a digit |
| Waveform.DecodeLegacyShape | oscope_scpi/keysight.py:718-757 | it fails iff the source is a pod whose name does not end in a digit; otherwise times start at sample 0 |
| Waveform.LegacyWordPodHighLanes | oscope_scpi/keysight.py:732-751 | a 16-lane legacy pod carries zeros in lanes 8..15 |
| Commands.MeasureCommands | oscope_scpi/keysight.py:1013-1019 | both forms start with MEASure:mode, the query form with MEASure:mode?; without parameters they are exactly those, with parameters both end with a space and the parameters |
| Commands.QueryIsCommandWithMark | oscope_scpi/keysight.py:1013-1019 | the write is MEASure:mode alone without parameters and MEASure:mode, a space and the parameters with them; the query is the write with '?' after the name |
| Commands.SourceSwitchAsWritten | oscope_scpi/keysight.py:1006-1011 | as written, every call whose reply parses re-sends the source |
| Commands.SourceSwitch | oscope_scpi/keysight.py:1006-1011 | corrected: switch iff the reply's channel number differs from the requested one |
| Commands.SourceSwitchDiscrepancy | oscope_scpi/keysight.py:1006-1011 | the reply CHAN1 with channel "1" switches as written but not when corrected |
| Commands.SourceSwitchExactly | oscope_scpi/keysight.py:1006-1011 | the corrected test keeps the source exactly when the reply names the requested channel |
| Commands.HardcopyCommands | oscope_scpi/keysight.py:265-279 | the query asks for PNG; only legacy firmware sends writes before it |
| Commands.BlankCommand | oscope_scpi/scpi.py:556-560 | modern firmware blanks ALL; legacy firmware sends BLANk without a parameter |
| Commands.ValidViews | oscope_scpi/keysight.py:248-253 | only valid channels are viewed, at most one per request |
| Commands.ValidViewsExactly | oscope_scpi/keysight.py:248-253 | a string channel is viewed iff it was requested and is valid |
| Commands.Views | oscope_scpi/keysight.py:252-253 | one VIEW command per channel, in the order given |
| Commands.AutoscaleCommands | oscope_scpi/keysight.py:229-259 | the sequence ends with AUToscale, and starts with the placement command iff MXR |
| Commands.AutoscaleShape | oscope_scpi/keysight.py:234-244 | nothing is blanked or viewed without a channel; otherwise blanking comes first |
| Commands.IntChannelNeverViewed | oscope_scpi/keysight.py:250 | an integer channel is never in the string list, so it is skipped |
| Commands.StatisticsOnCommand | oscope_scpi/keysight.py:1025-1028 | the statistics are switched on with MEASure:STATistics ON exactly on modern firmware, with the legacy DISPlay form otherwise |
| Commands.AnnotateCommands | oscope_scpi/keysight.py:116-140 | modern firmware sends only the colour step; legacy firmware sends the colour if given, then background, quoted text and ANN ON |
| Commands.AnnotateOffCommand | oscope_scpi/keysight.py:192-198 | the off command addresses bookmark 1 exactly on modern firmware |
| Commands.AnnotateOffUndoes | oscope_scpi/keysight.py:116-198 | on modern firmware every annotate command addresses bookmark 1, which annotateOff deletes; on legacy firmware annotate ends with ANN ON and annotateOff sends ANN OFF |
| Commands.ModernAnnotationIsBookmark | oscope_scpi/keysight.py:160-190 | every command annotateColor sends on modern firmware addresses bookmark 1, whether the colour lookup succeeds or fails |
| Commands.ChannelColorTranslates | oscope_scpi/keysight.py:143-158 | each legacy colour chN translates to CHANN |
| Commands.AnnotateColorPlan | oscope_scpi/keysight.py:160-190 | the colour saved, the two bookmark position writes, KeyError after them for an unknown colour, and the legacy path |
| Commands.MeasureTblUnits | oscope_scpi/keysight.py:1700-1712 | the table's unit, or "" for an unknown name; always one of five units |
| Commands.MeasureUnitsClosed | oscope_scpi/keysight.py:1671-1698 | every unit is one of five, and both peak-to-peak names give V |
| Statistics.StatisticsSetup | oscope_scpi/dso.py:66-67 | DSO-X and the intended MSO-X 3000 driver open the menu and the display first; MXR sends only the statistics switch |
| Statistics.Msox3000StatisticsAsWritten | oscope_scpi/MSOX3000.py:158-162 | as written, MSO-X 3000 sends the two display writes, never the statistics switch, and ends in AttributeError |
| Statistics.Msox3000StatisticsDiscrepancy | oscope_scpi/MSOX3000.py:158-177 | on a table the DSO-X driver reads, the driver as written raises, while the intended driver returns the DSO-X records |
| Statistics.Chunks | oscope_scpi/dso.py:77-78 | every row holds 1..7 fields, and all but the last exactly 7 |
| Statistics.ChunksFlatten | oscope_scpi/MSOX3000.py:165 | chunking loses and reorders nothing |
| Statistics.ChunksOfWholeRecords | oscope_scpi/dso.py:77-78 | a list of whole records gives one row per 7 fields, row i holding fields 7i..7i+6 |
| Statistics.ParseRow | oscope_scpi/dso.py:80-89 | a record is labelled by field 0, holds float() of fields 1..5, and its count is the driver's count of field 6 (stated by ParseRowCount) |
| Statistics.ParseRowCount | oscope_scpi/dso.py:80-89 | a parsed record's count is FieldCount of its row: int(float(field 6)) for MXR, int(field 6) otherwise |
| Statistics.FieldReal | oscope_scpi/dso.py:82-86 | float() of a field succeeds iff the text parses, with that value; otherwise ValueError |
| Statistics.FieldCount | oscope_scpi/mxr.py:104 | a short row fails with IndexError; otherwise the count is int(float(field 6)) for MXR and int(field 6) for DSO-X and MSO-X 3000, succeeding iff that parse does, else ValueError |
| Statistics.ParseStatistics | oscope_scpi/dso.py:72-89 | the loop computes the statistics of the flat list |
| Statistics.ParseEachRow | oscope_scpi/dso.py:80-89 | the row loop appends one record per row and stops at the first failure |
| Statistics.StopAtFailure | oscope_scpi/dso.py:80-89 | a failing row after successes decides the whole result |
| Statistics.RaggedListGivesNothing | oscope_scpi/dso.py:72-77 | DSO-X and MXR return nothing for a list whose length is not a multiple of 7 |
| Statistics.RaggedListFailsUnchecked | oscope_scpi/MSOX3000.py:165-177 | the intended MSO-X 3000 driver, which does not check the length, always fails on such a list |
| Statistics.WholeRecordsLabelled | oscope_scpi/dso.py:77-89 | whole records give one record per 7 fields, labelled by its first field |
| Statistics.DsoAgreesWithMsox3000OnWholeRecords | oscope_scpi/MSOX3000.py:165-177 | on whole records DSO-X and the intended MSO-X 3000 driver agree |
| Statistics.IntegerCountAgrees | oscope_scpi/mxr.py:104 | a plain integer count reads the same through int() and int(float()) |
| Statistics.FloatCountOnlyMxr | oscope_scpi/mxr.py:104 | MXR truncates a float count, which DSO-X rejects |
| Msox3000.AnalogList | oscope_scpi/MSOX3000.py:58 | the class-level analog list is "1".."4" |
| Msox3000.AllList | oscope_scpi/MSOX3000.py:55 | the full list is the analog list and the two pods |
| Msox3000.AllListMembers | oscope_scpi/MSOX3000.py:55 | exactly 1..4, POD1 and POD2 are valid |
| Msox3000.Current | oscope_scpi/MSOX3000.py:209-210 | a given channel replaces the current one |
| Msox3000.ChanList | oscope_scpi/MSOX3000.py:78-81 | a list as its items, anything else as a list of one |
| Msox3000.CommaList | oscope_scpi/MSOX3000.py:87-92 | the accumulated text is empty iff no channel is given, and otherwise starts with the ',' that [1:] removes |
| Msox3000.AutoscaleOldChecks | oscope_scpi/MSOX3000.py:83-95 | the command is sent iff at most five channels are given and all are valid; otherwise ValueError |
| Msox3000.CommaListJoins | oscope_scpi/MSOX3000.py:92 | the argument is the rendered channels joined by ',' |
| Msox3000.OneChannelCommand | oscope_scpi/MSOX3000.py:92-95 | a single valid channel renders alone |
| Msox3000.WaveformChannel | oscope_scpi/MSOX3000.py:209-218 | it succeeds iff no list is given and the current channel is valid; ValueError otherwise |
| Msox3000.Pod | oscope_scpi/MSOX3000.py:220-223 | POD1 and POD2 give pods 1 and 2, analog channels none |
| Msox3000.WaveformCommands | oscope_scpi/MSOX3000.py:227-246 | the points mode first, then the points if given, the source, and the format and scale queries |
| Msox3000.Header | oscope_scpi/MSOX3000.py:331-334 | a pod's eight lane labels, or Time and Voltage |
| Msox3000.Row | oscope_scpi/MSOX3000.py:338-343 | time x_origin + i*x_increment, then the pod's bits or the scaled voltage |
| Msox3000.RowsAsWritten | oscope_scpi/MSOX3000.py:337 | as written, rows for all samples but the last |
| Msox3000.LastSampleDropped | oscope_scpi/MSOX3000.py:337-349 | a non-empty download writes one row fewer than the count it returns |
| Msox3000.WriteRows | oscope_scpi/MSOX3000.py:337-349 | corrected: one row per sample, and the count equals the rows written |
| Msox3000.RowsCoverSamples | oscope_scpi/MSOX3000.py:338-343 | consecutive rows are one x increment apart, and pod rows hold the sample's bits |
| Msox3000.PodRowSpellsByte | oscope_scpi/MSOX3000.py:339-341 | a pod row holds the byte's eight lanes, which spell the byte |
| Filenames.DropExtension | oscope.py:72-74 | a trailing ".ext" is removed, and nothing else |
| Filenames.LastComponent | oscope.py:77-81 | the component kept holds no '/' and is the whole name (less one trailing '/') or the tail that follows a '/' |
| Filenames.LastComponentIsTail | oscope.py:77-81 | the component kept is the only tail of the name (less one trailing '/') that holds no '/' and is the whole name or follows a '/': exactly the text after the last '/' |
| Filenames.Stem | oscope.py:84-89 | the path always lies in HOME/Downloads |
| Filenames.Suffix | oscope.py:91-97 | the suffix is empty exactly for number 0 |
| Filenames.CandidateInjective | oscope.py:95-97 | different suffix numbers give different names |
| Filenames.TakenBound | oscope.py:95-97 | n taken candidates mean at least n existing files, so the loop ends |
| Filenames.FirstFreeUnique | oscope.py:94-97 | at most one number is the first free one |
| Filenames.FreeSuffix | oscope.py:91-97 | the suffix chosen is that of the first free number |
| Filenames.StoredName | oscope.py:72-81 | the name without extension and directories |
| Filenames.HandleFilename | oscope.py:72-99 | not unique: stem plus .ext whatever exists; unique: the first free candidate |
| Filenames.ExtensionGivenOrNot | oscope.py:73-74 | a name given with ".ext" is the same as one without |
| Filenames.UniqueNamePlacement | oscope.py:99 | the chosen file starts with the stem and ends with the extension |
| Filenames.TimestampBeforeSuffix | oscope.py:87-89 | the timestamp comes after the name and before any suffix |
| Filenames.BaseNameHasNoSlash | oscope.py:80-81 | the stored name never holds a '/' |
| Filenames.AnnotateRule | oscope.py:146-151 | rejected iff a non-blank text has no colour or a colour has no text |
| Filenames.BlankAnnotateAlone | oscope.py:146-151 | the bare option (a blank text) needs no colour |
| Instrument.DrainReads | oscope_scpi/scpi.py:261-311 | the drain loop gives the specification's flag, consumes one reply and logs one query per read, and leaves the flag naming the final form |
| Instrument.CallLogs | oscope_scpi/scpi.py:131-143 | a call logs the prefixed command before any drain reads |
| Instrument.IdnFields | oscope_scpi/scpi.py:407-421 | the fields present are stored in order; the version only with all four |
| Instrument.IdnAssigned | oscope_scpi/scpi.py:404-421 | on a complete reply the stores agree with ParseIdn; otherwise the version is untouched |
| Instrument.IdentifiedConfig | oscope_scpi/scpi.py:413-421 | the version stored, and () as the threshold next to a tuple version |
| Instrument.Outcome | oscope_scpi/scpi.py:130-169 | a call succeeds only on a successful reply, with an answer of the kind its wrapper returns |
| Instrument.Exchange | oscope_scpi/keysight.py:299-460 | a successful run gives one answer per call, each of its kind |
| Instrument.ExchangeExtends | oscope_scpi/scpi.py:130-169 | a run only adds to the log |
| Instrument.ExchangeSends | oscope_scpi/scpi.py:131-132 | a successful run has logged every prefixed command in order, with only drain reads between |
| Instrument.ExchangesSend | oscope_scpi/keysight.py:299-460 | two successful runs in a row send both command lists in order |
| Instrument.ModernSetup | oscope_scpi/keysight.py:299-400 | six calls up to the preamble query, with the three queries in place |
| Instrument.ModernFetch | oscope_scpi/keysight.py:459-460 | streaming off, then the block query |
| Instrument.PlanModern | oscope_scpi/keysight.py:394-457 | a plan holds a valid preamble |
| Instrument.LegacySetup | oscope_scpi/keysight.py:599-625 | eight calls, nine with points, with the four queries in place |
| Instrument.ModernSends | oscope_scpi/keysight.py:299-460 | a successful modern download has sent the set-up, then STReaming OFF and DATA?, in order |
| Instrument.LegacySends | oscope_scpi/keysight.py:599-698 | a successful legacy download has sent the set-up, then PREamble? and DATA?, in order |
| Instrument.LegacyReadSends | oscope_scpi/keysight.py:641-698 | after the set-up the legacy download sends PREamble?, then DATA? |
| Instrument.WaveformSource | oscope_scpi/keysight.py:774-783 | the source downloaded is in the full list |
| Instrument.WaveformSourceRule | oscope_scpi/keysight.py:774-783 | the download goes ahead iff no list is given and the new current channel is a listed name; a refusal sends nothing |
| Instrument.DownloadNeedsVersion | oscope_scpi/keysight.py:786 | an incomparable version stops the download before any call |
| Instrument.Scope.Oscilloscope | oscope_scpi/scpi.py:51-82 | prefix ':', strip '\n', channel 1, version 0.0, legacy errors, and the base profile |
| Instrument.Scope.InitKeysight | oscope_scpi/keysight.py:52-94 | the Keysight profile, the transport untouched |
| Instrument.Scope.AddPods | oscope_scpi/dso.py:108 | the pods appended to the full list in place, the rest unchanged |
| Instrument.Scope.AddMxrChannels | oscope_scpi/mxr.py:56-73 | the five extensions in constructor order, the rest unchanged |
| Instrument.Scope.Build | oscope_scpi/oscilloscope.py:122-237 | the object getBestClass builds has its class's profile, a fresh transport and the base settings |
| Instrument.Scope.Specialise | oscope_scpi/dso.py:46-265 | the constructor chain leaves the class's profile and touches nothing else |
| Instrument.Scope.DsoxChain | oscope_scpi/dso.py:46-56 | DSOX and its 3000 A/T subclasses |
| Instrument.Scope.MsoxChain | oscope_scpi/dso.py:97-111 | MSOX and its 3000 A/T subclasses |
| Instrument.Scope.MxrChain | oscope_scpi/mxr.py:46-76 | MXR, and EXR's series on top |
| Instrument.Scope.CheckInstErrors | oscope_scpi/scpi.py:247-313 | the settings unchanged; the result and the new transport are those of the drain specification |
| Instrument.Scope.Call | oscope_scpi/scpi.py:130-168 | the transport call with its error check, as the call specification says |
| Instrument.Scope.Write | oscope_scpi/scpi.py:152-169 | _instWrite: the call, failing only on a transport or drain error |
| Instrument.Scope.Query | oscope_scpi/scpi.py:130-147 | _instQuery: the reply text stripped of read_strip characters |
| Instrument.Scope.QueryNumber | oscope_scpi/scpi.py:149-150 | succeeds iff the stripped reply parses as a float, with that value |
| Instrument.Scope.QueryBlock | oscope_scpi/scpi.py:319-334 | the block's bytes, or process exit on a transport error |
| Instrument.Scope.QueryNumbers | oscope_scpi/scpi.py:340-355 | the numbers, or process exit on a transport error |
| Instrument.Scope.GetID | oscope_scpi/scpi.py:404-421 | *IDN? without error check; the fields stored one by one, IndexError on a short reply |
| Instrument.Scope.StoreIdn | oscope_scpi/scpi.py:407-421 | the stores of the fields present, IndexError at the first one missing |
| Instrument.Scope.Open | oscope_scpi/scpi.py:110-114 | the settings hold the identity _getID stored; a failed _getID returns its error with no *CLS sent; otherwise result and transport are those of *CLS with error check on the new identity; on success *IDN? and *CLS were sent first |
| Instrument.Scope.Perform | oscope_scpi/scpi.py:130-169 | one download call through its wrapper, as the outcome specification says |
| Instrument.Scope.Converse | oscope_scpi/keysight.py:299-460 | the calls in order up to the first failure, as the run specification says |
| Instrument.Scope.ModernDownload | oscope_scpi/keysight.py:287-581 | _waveformDataNew as its specification |
| Instrument.Scope.ReadModern | oscope_scpi/keysight.py:394-581 | the modern download from the preamble reply on, as its specification |
| Instrument.Scope.LegacyDownload | oscope_scpi/keysight.py:587-760 | _waveformDataLegacy as its specification |
| Instrument.Scope.ReadLegacy | oscope_scpi/keysight.py:623-760 | the legacy download from the points reply on, as its specification |
| Instrument.Scope.WaveformData | oscope_scpi/keysight.py:762-791 | the new current channel, nothing else in the settings changed, and the download of the waveform specification |
| Instrument.Scope.Download | oscope_scpi/keysight.py:786-789 | the version picks the modern or the legacy download |

## Left out

- The VISA transport (pyvisa's resource handling, clear, timeouts, block framing) is a scripted list of replies. A reply of the wrong kind for a query reads as a transport error.
- IEEE floating point: scaling, time axes and version numbers are computed over exact reals. FLOat samples are kept as their raw bytes.
- Python float literals with underscores, `inf` or `nan`, and non-ASCII digits and spaces, are not accepted by the number parsers.
- Scpi.Observe and Scpi.Classify: the error-queue drain strips replies with the ASCII whitespace test and recognises a bare code with the ASCII digit test. The source uses `str.strip()` (scpi.py:289) and `str.isdigit()` (scpi.py:297), which are Unicode. A legacy reply "²" therefore switches to the modern form in Python but is an error entry in the model.
- Filenames.Stem: takes the `HOME` directory as a parameter. `os.environ['HOME']` (oscope.py:84) raises KeyError when `HOME` is unset, and the model does not capture that KeyError.
- Statistics.StatisticsSetup, Statistics.RaggedListFailsUnchecked and Statistics.DsoAgreesWithMsox3000OnWholeRecords: for MSO-X 3000 these describe the intended driver. As written, `super(MSOX3000, self)._measureStatistics()` (MSOX3000.py:162) raises AttributeError after the two display writes, because `MSOX3000` derives from `Oscilloscope` and only `Keysight` defines that helper. `Statistics.Msox3000StatisticsAsWritten` models that outcome.
- numpy arrays are sequences of unbounded integers or reals; apart from the decode, the element type is not modelled.
- Waveform.Volts: computes `values - y_reference` over unbounded integers. The modern decode (keysight.py:575) subtracts in numpy's element type: int8 for BYTE, int16 for WORD, int32 for LONG and int64 for LONGLONG (keysight.py:476-493). That subtraction can wrap when `y_reference` is non-zero and a sample lies near the edge of its type's range; the model does not capture this wrap. The legacy decode (keysight.py:755) stores its unsigned bytes as int16 values 0..255 (keysight.py:718), so its subtraction cannot wrap for a reference between -32512 and 32767, and the model's unbounded result is exact there.
- Text.Upper: upper-cases ASCII letters only, while `str.upper()` (oscilloscope.py:119) is Unicode. Manufacturer names with non-ASCII letters are therefore not upper-cased as Python would.
- Filenames.AnnotateRule: the blank test behind `Strip` knows only ASCII whitespace, while `str.strip()` (oscope.py:150) is Unicode. A text such as U+00A0 alone is blank in Python but not blank in the model.
- The native `long` size for format LONG is the 32 bits the code declares.
- The DVM polling loop (keysight.py:867-878) and every `sleep` depend on the clock and are not modelled.
- File, CSV, plot and hardcopy I/O, `setupSave`/`setupLoad`, the NPZ/CSV writers, QuantiPhy formatting, argparse and `main` are not modelled; only the file naming and the annotate check are.
- Printing is not modelled: the debug metadata dump, the histogram points warning, the invalid-channel messages, and the command text that `checkInstErrors` prints.
- `_measure`'s `float(val)` of the reply is not modelled; its command strings and source test are.
- Python 2 branches (`version_info < (3,)`) are not modelled.
- The UXR classes are not part of this model: `ProfileOf` gives None for them, and `Instrument.Scope.Build` is not defined for them.
- MSOX3000.py calls `self._channelStr`, which no class of the package defines, in `setupAutoscaleOLD` (line 92) and in `waveform()` (line 240). As written, each call raises AttributeError. In `waveform()` that happens after `WAVeform:POINts:MODE MAX` (and `WAVeform:POINts`) are sent, so the row loop at line 337 is never reached. The model does not produce this AttributeError: it takes the rendered channel as a parameter (`render` in `Msox3000.AutoscaleOld`, `source` in `Msox3000.WaveformCommands`) and models what these methods do once such a helper exists.
- The output wrappers (`outputOn`, `outputOff` with `BLANK <channelStr>`, `outputOnAll`) and the per-measurement wrappers (`measureBitRate`, `measureBurstWidth` and the rest, which pick their mode and parameters by dialect) are not modelled. Only `outputOffAll`'s choice (`Commands.BlankCommand`) and `_measure`'s string building (`Commands.MeasureCommands`) are modelled.
- The host byte order (`sys.byteorder`) is a parameter of the download.
- Msox3000.AutoscaleOld: has no contract of its own; `Msox3000.AutoscaleOldChecks` and `Msox3000.OneChannelCommand` state what it does.
- Waveform.DecodeModern and Waveform.DecodeLegacy: have no contract of their own; `Waveform.DecodeModernShape`, `Waveform.DecodeLegacyShape` and the lemmas beside them state what they do.

## Findings

| source | as written | input that shows it | evidently intended | confidence | as-written member | corrected member |
|---|---|---|---|---|---|---|
| oscope_scpi/keysight.py:1006-1011 | `_chanNumber(src)` (an int) is compared with `self.channel`, which must be a string of the analog list, so the two are never equal and `MEASure:SOURce` is re-sent on every call | reply "CHAN1" with channel "1" | re-send the source only when the instrument's source differs from the requested channel | not executed | Commands.SourceSwitchAsWritten, Commands.SourceSwitchDiscrepancy | Commands.SourceSwitch, Commands.SourceSwitchExactly |
| oscope_scpi/MSOX3000.py:162 | `MSOX3000` derives from `Oscilloscope`, so `super(MSOX3000, self)._measureStatistics()` finds no such method and raises AttributeError after the two display writes | any call of `measureStatistics` | Keysight's helper sends `MEASure:STATistics ON`, reads `MEASure:RESults?`, and the rows at lines 165-177 are parsed | not executed | Statistics.Msox3000StatisticsAsWritten, Statistics.Msox3000StatisticsDiscrepancy | Statistics.StatisticsSetup, Statistics.DsoAgreesWithMsox3000OnWholeRecords |
| oscope_scpi/MSOX3000.py:337-349 | rows are written for `range(0, nLength-1)`, so the last sample is dropped, while `nLength` is returned as the count | any non-empty block, for example one byte; as shown, the loop is only reached once a `_channelStr` helper exists, since line 240 calls it undefined (see "## Left out") | one row per sample, and the returned count equal to the rows written | not executed | Msox3000.RowsAsWritten, Msox3000.LastSampleDropped | Msox3000.WriteRows, Msox3000.RowsCoverSamples |
