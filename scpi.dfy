/**
 * The SCPI session kernel as values: the command-prefix rule, the *IDN? parse,
 * the software-version comparison that selects a command dialect, the channel
 * string helpers, and the error-queue drain as a function of the replies the
 * instrument gives.
 */
module Scpi {
  import opened Results
  import opened Text

  /** Number of entries the instrument's error queue holds (scpi.py, SCPI.ErrorQueue). */
  const ErrorQueue: nat := 30

  type byte = b: int | 0 <= b < 256

  /**
   * One scripted answer of the instrument to one transport call: a text line, a
   * definite-length binary block, an ASCII list of numbers, or a transport error.
   */
  datatype Reply =
    | Answer(text: string)
    | Block(bytes: seq<byte>)
    | Numbers(values: seq<real>)
    | Timeout
    | OtherIOError

  /** The reply the next transport call gets; an exhausted script never answers. */
  function Head(replies: seq<Reply>): Reply {
    if replies == [] then Timeout else replies[0]
  }

  function Tail(replies: seq<Reply>): (r: seq<Reply>)
    ensures |r| == if replies == [] then 0 else |replies| - 1
  {
    if replies == [] then [] else replies[1..]
  }

  /** What a text query makes of a reply: its text, or the transport error it raises. */
  function TextOf(r: Reply): Result<string> {
    match r
    case Answer(t) => Ok(t)
    case Timeout => Err(IoTimeout)
    case _ => Err(IoOther)
  }

  // ---------------------------------------------------------------- prefix rule

  /**
   * The string put on the wire for a command: IEEE 488.2 common commands (those
   * starting with '*') go unchanged, every other command gets the session prefix.
   * Indexing the first character of an empty command fails.
   */
  function PrefixCommand(prefix: string, cmd: string): (r: Result<string>)
    ensures r.Ok? <==> cmd != []
    ensures r.Ok? && cmd[0] == '*' ==> r.value == cmd
    ensures r.Ok? && cmd[0] != '*' ==> StartsWith(r.value, prefix) && EndsWith(r.value, cmd)
                                       && |r.value| == |prefix| + |cmd|
  {
    if cmd == [] then Err(IndexError)
    else if cmd[0] == '*' then Ok(cmd)
    else Ok(prefix + cmd)
  }

  /** A query reply as the caller sees it: trailing read_strip characters removed. */
  function StripReply(readStrip: string, text: string): (r: string)
    ensures StartsWith(text, r)
    ensures forall i :: |r| <= i < |text| ==> text[i] in readStrip
    ensures r != [] ==> r[|r| - 1] !in readStrip
  {
    RStrip(text, readStrip)
  }

  /** Stripping a reply that already lacks trailing terminators leaves it as it is. */
  lemma StripReplyKeepsClean(readStrip: string, text: string)
    requires text == [] || text[|text| - 1] !in readStrip
    ensures StripReply(readStrip, text) == text
  {
  }

  /** Stripping twice is stripping once. */
  lemma StripReplyIdempotent(readStrip: string, text: string)
    ensures StripReply(readStrip, StripReply(readStrip, text)) == StripReply(readStrip, text)
  {
    StripReplyKeepsClean(readStrip, StripReply(readStrip, text));
  }

  // ---------------------------------------------------------------- versions

  /**
   * The software version read from *IDN?: a major.minor number, or (when that
   * does not parse) the tuple of its '.'-separated parts.
   */
  datatype Version = Numeric(number: real) | Parts(parts: seq<string>)

  /**
   * The version at or below which the legacy dialect is used: a number, or the
   * empty tuple the identity parse installs next to a tuple version.
   */
  datatype Threshold = Level(level: real) | EmptyTuple

  /**
   * version > versionLegacy under Python 3 ordering: numbers compare as numbers, a
   * tuple is greater than the empty tuple exactly when it is non-empty, and a
   * number compared with a tuple raises TypeError.
   */
  function Newer(v: Version, t: Threshold): (r: Result<bool>)
    ensures r.Ok? <==> (v.Numeric? <==> t.Level?)
    ensures v.Numeric? && t.Level? ==> r == Ok(v.number > t.level)
    ensures v.Parts? && t.EmptyTuple? ==> r == Ok(v.parts != [])
  {
    match (v, t)
    case (Numeric(x), Level(l)) => Ok(x > l)
    case (Parts(ps), EmptyTuple) => Ok(|ps| > 0)
    case _ => Err(TypeError)
  }

  /** The value a SCPI session starts with, before any identity is read. */
  const InitialVersion: Version := Numeric(0.0)
  const InitialThreshold: Threshold := Level(0.0)

  /** An untouched session is in the legacy dialect: 0.0 > 0.0 is false. */
  lemma InitialIsLegacy()
    ensures Newer(InitialVersion, InitialThreshold) == Ok(false)
  {
  }

  /**
   * The version field of *IDN?: float(parts[0] + '.' + parts[1]) of its '.'-parts;
   * if that fails for any reason, the tuple of the parts with newlines removed from
   * the last one.
   */
  function ParseVersion(field: string): (v: Version)
    ensures v.Parts? ==> |v.parts| >= 1 && '\n' !in v.parts[|v.parts| - 1]
  {
    VersionOfParts(Split(field, '.'))
  }

  /** The version the '.'-parts of the field stand for. */
  function VersionOfParts(ver: seq<string>): (v: Version)
    requires |ver| >= 1
    ensures v.Parts? ==> |v.parts| >= 1 && '\n' !in v.parts[|v.parts| - 1]
  {
    match DecimalOfParts(ver)
    case Some(x) => Numeric(x)
    case None => Parts(ver[..|ver| - 1] + [RemoveChar(ver[|ver| - 1], '\n')])
  }

  /** float(ver[0] + '.' + ver[1]); None when that raises, also for a single part. */
  function DecimalOfParts(ver: seq<string>): Option<real> {
    if |ver| >= 2 then ParseFloat(ver[0] + "." + ver[1]) else None
  }

  /** The manufacturer, model, serial number and version fields of *IDN?. */
  datatype Identity = Identity(manufacturer: string, model: string, serial: string, version: Version)

  /**
   * The *IDN? reply split on ','; fewer than four fields fail at the first missing
   * one, fields after the fourth are ignored.
   */
  function ParseIdn(reply: string): (r: Result<Identity>)
    ensures r.Ok? <==> |Split(reply, ',')| >= 4
    ensures r.Ok? ==> ',' !in r.value.manufacturer && ',' !in r.value.model && ',' !in r.value.serial
  {
    var idn := Split(reply, ',');
    SplitFields(reply, ',');
    if |idn| < 4 then Err(IndexError)
    else Ok(Identity(idn[0], idn[1], idn[2], ParseVersion(idn[3])))
  }

  /** The threshold after an identity has been read: () next to a tuple version. */
  function ThresholdAfter(id: Identity, t: Threshold): Threshold {
    if id.version.Parts? then EmptyTuple else t
  }

  /** Four comma-free fields joined by ',' read back as those fields. */
  lemma IdnRoundTrip(manu: string, model: string, serial: string, fw: string)
    requires ',' !in manu && ',' !in model && ',' !in serial && ',' !in fw
    ensures ParseIdn(manu + "," + model + "," + serial + "," + fw)
         == Ok(Identity(manu, model, serial, ParseVersion(fw)))
  {
    var parts := [manu, model, serial, fw];
    assert Join(parts, ',') == manu + "," + model + "," + serial + "," + fw by {
      assert Join(parts[3..], ',') == fw;
      assert Join(parts[2..], ',') == serial + "," + fw;
      assert Join(parts[1..], ',') == model + "," + serial + "," + fw;
    }
    SplitJoin(parts, ',');
  }

  /** Once a tuple version is read, every later dialect test picks the modern dialect. */
  lemma TupleVersionAlwaysNewer(reply: string, t: Threshold)
    requires ParseIdn(reply).Ok? && ParseIdn(reply).value.version.Parts?
    ensures Newer(ParseIdn(reply).value.version, ThresholdAfter(ParseIdn(reply).value, t)) == Ok(true)
  {
  }

  /** A firmware field without a '.' never parses as a number. */
  lemma VersionWithoutPoint(field: string)
    requires '.' !in field
    ensures ParseVersion(field) == Parts([RemoveChar(field, '\n')])
  {
    assert Split(field, '.') == [field];
  }

  /**
   * A field of two '.'-free parts: float(major.minor) when that parses, and
   * otherwise the tuple of both parts with the newlines of the last removed.
   */
  lemma VersionOfTwoParts(major: string, minor: string)
    requires '.' !in major && '.' !in minor
    ensures ParseFloat(major + "." + minor).Some? ==>
      ParseVersion(major + "." + minor) == Numeric(ParseFloat(major + "." + minor).value)
    ensures ParseFloat(major + "." + minor).None? ==>
      ParseVersion(major + "." + minor) == Parts([major, RemoveChar(minor, '\n')])
  {
    SplitPair(major, minor);
    assert DecimalOfParts([major, minor]) == ParseFloat(major + "." + minor);
  }

  /** Two '.'-free parts joined by '.' split into those parts. */
  lemma SplitPair(major: string, minor: string)
    requires '.' !in major && '.' !in minor
    ensures Split(major + "." + minor, '.') == [major, minor]
  {
    var parts := [major, minor];
    assert Join(parts[1..], '.') == minor;
    assert Join(parts, '.') == major + "." + minor;
    SplitJoin(parts, '.');
  }

  /** Firmware 02.65 is legacy on a Keysight threshold of 2.99, firmware 11.10 is modern. */
  lemma DialectExamples()
    ensures Newer(Numeric(2.65), Level(2.99)) == Ok(false)
    ensures Newer(Numeric(11.10), Level(2.99)) == Ok(true)
    ensures Newer(Numeric(3.00), Level(2.99)) == Ok(true)
    ensures Newer(Numeric(7.20), Level(9.999)) == Ok(false)
  {
  }

  // ---------------------------------------------------------------- channels

  /** The value a caller passes as a channel: nothing, an integer, a string or a list. */
  datatype Channel =
    | NoChannel
    | IntChannel(n: int)
    | StrChannel(s: string)
    | ListChannel(items: seq<string>)

  /**
   * channelStr: 'CHAN' + n when int() accepts the channel, the argument itself
   * for None and lists (int() raises TypeError), the string form otherwise.
   */
  function ChannelStr(c: Channel): (r: Channel)
    ensures c.NoChannel? || c.ListChannel? ==> r == c
    ensures c.IntChannel? ==> r == StrChannel("CHAN" + IntToString(c.n))
    ensures c.StrChannel? && ParseInt(c.s).None? ==> r == c
    ensures c.StrChannel? && ParseInt(c.s).Some? ==> r == StrChannel("CHAN" + IntToString(ParseInt(c.s).value))
  {
    match c
    case NoChannel => c
    case ListChannel(_) => c
    case IntChannel(n) => StrChannel("CHAN" + IntToString(n))
    case StrChannel(s) =>
      match ParseInt(s)
      case Some(n) => StrChannel("CHAN" + IntToString(n))
      case None => c
  }

  /** A numeric string and the number it denotes name the same channel. */
  lemma ChannelStrOfDigits(n: nat)
    ensures ChannelStr(StrChannel(NatToString(n))) == ChannelStr(IntChannel(n))
  {
    IntToStringParses(n);
  }

  /** No channel string parses as an integer, so channelStr leaves its own results alone. */
  lemma ChannelStrIdempotent(c: Channel)
    ensures ChannelStr(ChannelStr(c)) == ChannelStr(c)
  {
    var r := ChannelStr(c);
    if r.StrChannel? && r != c {
      ParseIntNeedsDigitOrSign(r.s);
    }
  }

  /**
   * _chanNumber: the digit after a leading 'CHAN', 0 when the reply does not start
   * with 'CHAN'; indexing past the end or a non-digit there fails.
   */
  function ChanNumber(s: string): (r: Result<int>)
    ensures !StartsWith(s, "CHAN") ==> r == Ok(0)
    ensures r.Ok? && StartsWith(s, "CHAN") ==> |s| > 4 && IsDigit(s[4]) && r.value == DigitValue(s[4])
    ensures r.Ok? ==> 0 <= r.value <= 9
  {
    if !StartsWith(s, "CHAN") then Ok(0)
    else if |s| == 4 then Err(IndexError)
    else if IsDigit(s[4]) then Ok(DigitValue(s[4]))
    else Err(ValueError)
  }

  /** A single-digit channel survives channelStr followed by _chanNumber, with any trailing text. */
  lemma ChanNumberRoundTrip(d: nat, trailing: string)
    requires d < 10
    ensures ChannelStr(IntChannel(d)).StrChannel?
    ensures ChanNumber(ChannelStr(IntChannel(d)).s + trailing) == Ok(d)
  {
    var s := "CHAN" + IntToString(d) + trailing;
    assert IntToString(d) == [DigitChar(d)];
    assert s[..4] == "CHAN";
    assert s[4] == DigitChar(d);
  }

  /** _onORoff: only the first two characters are compared with "ON". */
  predicate OnOrOff(s: string) {
    StartsWith(s, "ON")
  }

  /** _1OR0: only the first character is compared with "1". */
  predicate OneOrZero(s: string) {
    StartsWith(s, "1")
  }

  lemma OnOrOffIgnoresTrailing(s: string, t: string)
    ensures OnOrOff("ON" + t)
    ensures OneOrZero("1" + t)
    ensures |s| >= 2 ==> (OnOrOff(s + t) <==> OnOrOff(s))
    ensures s != [] ==> (OneOrZero(s + t) <==> OneOrZero(s))
    ensures !OnOrOff("OFF" + t) && !OneOrZero("0" + t)
  {
    if |s| >= 2 {
      assert (s + t)[..2] == s[..2];
    }
    if s != [] {
      assert (s + t)[..1] == s[..1];
    }
    assert ("ON" + t)[..2] == "ON";
    assert ("1" + t)[..1] == "1";
    assert ("OFF" + t)[1] == 'F';
    assert ("0" + t)[0] == '0';
  }

  // ---------------------------------------------------------------- error-queue drain

  /** The two forms of the error query. */
  datatype ErrorForm = LegacyForm | ModernForm

  function FormCommand(f: ErrorForm): string {
    match f
    case LegacyForm => "SYSTem:ERRor?"
    case ModernForm => "SYSTem:ERRor? STRing"
  }

  /** The text a 'no error' reply starts with in each form. */
  function NoErrorMark(f: ErrorForm): string {
    match f
    case LegacyForm => "+0,"
    case ModernForm => "0,"
  }

  /**
   * The form checkInstErrors starts in: modern only when the legacy flag is clear
   * and version > versionLegacy; the comparison is not made when the flag is set.
   */
  function EntryForm(legacyError: bool, v: Version, t: Threshold): (r: Result<ErrorForm>)
    ensures legacyError ==> r == Ok(LegacyForm)
    ensures r == Ok(ModernForm) <==> !legacyError && Newer(v, t) == Ok(true)
    ensures r.Err? ==> Newer(v, t).Err?
  {
    if legacyError then Ok(LegacyForm)
    else match Newer(v, t)
      case Err(e) => Err(e)
      case Ok(b) => Ok(if b then ModernForm else LegacyForm)
  }

  /**
   * What the drain sees of one reply to the error query: a timeout, any other
   * transport error, or the reply text with read_strip characters and then
   * surrounding whitespace removed.
   */
  datatype Observation = TimedOut | Failed | Line(entry: string)

  function Observe(r: Reply, readStrip: string): Observation {
    match r
    case Answer(t) => Line(Strip(StripReply(readStrip, t)))
    case Timeout => TimedOut
    case _ => Failed
  }

  function ObserveAll(replies: seq<Reply>, readStrip: string): (obs: seq<Observation>)
    ensures |obs| == |replies|
  {
    if replies == [] then [] else [Observe(replies[0], readStrip)] + ObserveAll(replies[1..], readStrip)
  }

  /** The i-th observation is what the i-th reply shows. */
  lemma {:induction false} ObserveAllAt(replies: seq<Reply>, readStrip: string, i: nat)
    requires i < |replies|
    ensures ObserveAll(replies, readStrip)[i] == Observe(replies[i], readStrip)
  {
    if i > 0 {
      ObserveAllAt(replies[1..], readStrip, i - 1);
    }
  }

  /** How one reply to the error query is classified. */
  datatype StepKind =
    | Switched   // the reply shows the other form is needed: read again in that form
    | Entry      // an error entry: note it and read on
    | Sentinel   // the 'no error' entry: stop
    | Fault      // an empty reply or an unexpected transport error: note it and stop

  /**
   * A timeout in the modern form and a bare error code in the legacy form switch
   * forms; a reply starting with the form's no-error text ends the loop, as does an
   * empty reply or another transport error; anything else is an error entry.
   */
  function Classify(f: ErrorForm, o: Observation): StepKind
  {
    match o
    case TimedOut => if f == ModernForm then Switched else Fault
    case Failed => Fault
    case Line(e) =>
      if e == [] then Fault
      else if StartsWith(e, NoErrorMark(f)) then Sentinel
      else if f == LegacyForm && DigitRun(e) == |e| then Switched
      else Entry
  }

  /** Each classification in terms of the reply, in both directions. */
  lemma ClassifyExactly(f: ErrorForm, o: Observation)
    ensures Classify(f, o) == Sentinel <==> o.Line? && StartsWith(o.entry, NoErrorMark(f))
    ensures Classify(f, o) == Switched <==>
      (f == ModernForm && o == TimedOut) || (f == LegacyForm && o.Line? && AllDigits(o.entry))
    ensures Classify(f, o) == Fault <==> (f == LegacyForm && o == TimedOut) || o == Failed || o == Line([])
    ensures Classify(f, o) == Entry <==>
      o.Line? && o.entry != [] && !StartsWith(o.entry, NoErrorMark(f)) && !(f == LegacyForm && AllDigits(o.entry))
  {
    if o.Line? {
      AllDigitsRun(o.entry);
    }
    if o.Line? && AllDigits(o.entry) && StartsWith(o.entry, NoErrorMark(f)) {
      assert o.entry[0] == NoErrorMark(f)[0];
    }
  }

  /** The form the next read uses. */
  function NextForm(f: ErrorForm, k: StepKind): (g: ErrorForm)
    ensures k == Switched ==> g != f
    ensures k != Switched ==> g == f
  {
    if k == Switched then (if f == LegacyForm then ModernForm else LegacyForm) else f
  }

  predicate Ends(k: StepKind) {
    k == Sentinel || k == Fault
  }

  predicate Reports(k: StepKind) {
    k == Entry || k == Fault
  }

  /** What read number i sees; a script that has run out never answers. */
  function ObsAt(obs: seq<Observation>, i: nat): Observation {
    if i < |obs| then obs[i] else TimedOut
  }

  /** How one reply reads under each of the two forms. */
  datatype Reading = Reading(legacy: StepKind, modern: StepKind)

  function ReadingOf(o: Observation): Reading {
    Reading(Classify(LegacyForm, o), Classify(ModernForm, o))
  }

  /** The step a read in form f takes on a reply read as r. */
  function Under(f: ErrorForm, r: Reading): StepKind {
    if f == LegacyForm then r.legacy else r.modern
  }

  /** The readings of a sequence of observations, one each. */
  function Readings(obs: seq<Observation>): (rs: seq<Reading>)
    ensures |rs| == |obs|
  {
    if obs == [] then [] else [ReadingOf(obs[0])] + Readings(obs[1..])
  }

  /** The reading of the silence after the script runs out: a legacy fault, a modern switch. */
  const Silence := Reading(Fault, Switched)

  /** What read number i reads. */
  function ReadingAt(rs: seq<Reading>, i: nat): Reading {
    if i < |rs| then rs[i] else Silence
  }

  /** The step read number i takes is the classification of what it observes. */
  lemma {:induction false} ReadingAtObs(obs: seq<Observation>, f: ErrorForm, i: nat)
    ensures Under(f, ReadingAt(Readings(obs), i)) == Classify(f, ObsAt(obs, i))
  {
    if i < |obs| {
      ReadingsAt(obs, i);
    }
  }

  lemma {:induction false} ReadingsAt(obs: seq<Observation>, i: nat)
    requires i < |obs|
    ensures Readings(obs)[i] == ReadingOf(obs[i])
  {
    if i > 0 {
      ReadingsAt(obs[1..], i - 1);
    }
  }

  /**
   * The result of a drain: the error flag, the form in use at the end, and for
   * every read made, the form it used and how its reply was classified.
   */
  datatype Drain = Drain(errors: bool, form: ErrorForm, forms: seq<ErrorForm>, kinds: seq<StepKind>)

  /**
   * The loop of checkInstErrors from iteration done on: at most ErrorQueue reads
   * in all, each consuming one reply.
   */
  function DrainFrom(f: ErrorForm, rs: seq<Reading>, done: nat, errors: bool): (d: Drain)
    requires done <= ErrorQueue
    ensures |d.forms| == |d.kinds| <= ErrorQueue - done
    ensures done < ErrorQueue ==> |d.kinds| >= 1
    ensures d.forms != [] ==> d.forms[0] == f
    decreases ErrorQueue - done
  {
    if done == ErrorQueue then Drain(errors, f, [], [])
    else
      var k := Under(f, ReadingAt(rs, done));
      if Ends(k) then Drain(errors || k == Fault, f, [f], [k])
      else
        var d := DrainFrom(NextForm(f, k), rs, done + 1, errors || k == Entry);
        Drain(d.errors, d.form, [f] + d.forms, [k] + d.kinds)
  }

  /** The whole drain of one checkInstErrors call. */
  function DrainAll(f: ErrorForm, replies: seq<Reply>, readStrip: string): Drain {
    DrainFrom(f, Readings(ObserveAll(replies, readStrip)), 0, false)
  }

  /** The commands a drain sends, in order. */
  function DrainCommands(prefix: string, forms: seq<ErrorForm>): (cmds: seq<string>)
    ensures |cmds| == |forms|
  {
    if forms == [] then [] else [prefix + FormCommand(forms[0])] + DrainCommands(prefix, forms[1..])
  }

  /** The i-th command sent is the session prefix and the query of the i-th read's form. */
  lemma {:induction false} DrainCommandsAt(prefix: string, forms: seq<ErrorForm>, i: nat)
    requires i < |forms|
    ensures DrainCommands(prefix, forms)[i] == prefix + FormCommand(forms[i])
  {
    if i > 0 {
      DrainCommandsAt(prefix, forms[1..], i - 1);
    }
  }

  /** The drain reads at least once and never more than the queue size. */
  lemma DrainBounded(f: ErrorForm, replies: seq<Reply>, readStrip: string)
    ensures 1 <= |DrainAll(f, replies, readStrip).kinds| <= ErrorQueue
  {
  }

  /** One iteration of the loop: a read that does not end it is followed by the rest of the loop. */
  lemma DrainStep(f: ErrorForm, rs: seq<Reading>, done: nat, errors: bool)
    requires done < ErrorQueue
    ensures var k := Under(f, ReadingAt(rs, done));
      var d := DrainFrom(f, rs, done, errors);
      if Ends(k) then d == Drain(errors || k == Fault, f, [f], [k])
      else
        var d' := DrainFrom(NextForm(f, k), rs, done + 1, errors || k == Entry);
        d == Drain(d'.errors, d'.form, [f] + d'.forms, [k] + d'.kinds)
  {
  }

  /** Each read after the first uses the form the read before it left. */
  predicate Chained(forms: seq<ErrorForm>, kinds: seq<StepKind>)
    requires |forms| == |kinds|
  {
    forall i :: 0 <= i < |kinds| - 1 ==> forms[i + 1] == NextForm(forms[i], kinds[i])
  }

  /** The form left after the last read of a non-empty drain. */
  function LastForm(forms: seq<ErrorForm>, kinds: seq<StepKind>): ErrorForm
    requires |forms| == |kinds| >= 1
  {
    var n := |kinds| - 1;
    if Ends(kinds[n]) then forms[n] else NextForm(forms[n], kinds[n])
  }

  lemma ChainCons(f: ErrorForm, k: StepKind, forms: seq<ErrorForm>, kinds: seq<StepKind>)
    requires |forms| == |kinds| >= 1 && forms[0] == NextForm(f, k) && Chained(forms, kinds)
    ensures Chained([f] + forms, [k] + kinds)
    ensures LastForm([f] + forms, [k] + kinds) == LastForm(forms, kinds)
  {
    var fs := [f] + forms;
    var ks := [k] + kinds;
    forall i | 0 <= i < |ks| - 1
      ensures fs[i + 1] == NextForm(fs[i], ks[i])
    {
      if i > 0 {
        assert fs[i + 1] == forms[i] && fs[i] == forms[i - 1] && ks[i] == kinds[i - 1];
      }
    }
    assert fs[|ks| - 1] == forms[|kinds| - 1] && ks[|ks| - 1] == kinds[|kinds| - 1];
  }

  /**
   * Each read after the first uses the form the previous read left, and the final
   * form is the one the last read left.
   */
  lemma {:induction false} DrainFormsFollowKinds(f: ErrorForm, rs: seq<Reading>, done: nat, errors: bool)
    requires done < ErrorQueue
    ensures var d := DrainFrom(f, rs, done, errors);
      Chained(d.forms, d.kinds) && d.form == LastForm(d.forms, d.kinds)
    decreases ErrorQueue - done
  {
    var k := Under(f, ReadingAt(rs, done));
    if !Ends(k) && done + 1 < ErrorQueue {
      DrainFormsFollowKinds(NextForm(f, k), rs, done + 1, errors || k == Entry);
      ChainedStep(f, rs, done, errors);
    } else {
      DrainStep(f, rs, done, errors);
      ChainedSingle(f, k);
    }
  }

  /** A chained rest of the drain preceded by a read that led to its first form is chained. */
  lemma ChainedStep(f: ErrorForm, rs: seq<Reading>, done: nat, errors: bool)
    requires done + 1 < ErrorQueue && !Ends(Under(f, ReadingAt(rs, done)))
    requires var k := Under(f, ReadingAt(rs, done));
      var d' := DrainFrom(NextForm(f, k), rs, done + 1, errors || k == Entry);
      Chained(d'.forms, d'.kinds) && d'.form == LastForm(d'.forms, d'.kinds)
    ensures var d := DrainFrom(f, rs, done, errors);
      Chained(d.forms, d.kinds) && d.form == LastForm(d.forms, d.kinds)
  {
    var k := Under(f, ReadingAt(rs, done));
    var d' := DrainFrom(NextForm(f, k), rs, done + 1, errors || k == Entry);
    DrainStep(f, rs, done, errors);
    ChainCons(f, k, d'.forms, d'.kinds);
  }

  /** A single read is chained, and leaves the form it names. */
  lemma ChainedSingle(f: ErrorForm, k: StepKind)
    ensures Chained([f], [k])
    ensures LastForm([f], [k]) == if Ends(k) then f else NextForm(f, k)
  {
  }

  /** The flag reports exactly this: a flag already set, an error entry seen, or a fault. */
  lemma {:induction false} DrainErrorsExactly(f: ErrorForm, rs: seq<Reading>, done: nat, errors: bool)
    requires done <= ErrorQueue
    ensures var d := DrainFrom(f, rs, done, errors);
      d.errors <==> errors || Entry in d.kinds || Fault in d.kinds
    decreases ErrorQueue - done
  {
    if done < ErrorQueue {
      var k := Under(f, ReadingAt(rs, done));
      DrainStep(f, rs, done, errors);
      if !Ends(k) {
        DrainErrorsExactly(NextForm(f, k), rs, done + 1, errors || k == Entry);
      }
    }
  }

  /** Only the last read can end the loop. */
  lemma {:induction false} DrainEndsOnlyLast(f: ErrorForm, rs: seq<Reading>, done: nat, errors: bool)
    requires done < ErrorQueue
    ensures var d := DrainFrom(f, rs, done, errors);
      forall i :: 0 <= i < |d.kinds| - 1 ==> !Ends(d.kinds[i])
    decreases ErrorQueue - done
  {
    var k := Under(f, ReadingAt(rs, done));
    DrainStep(f, rs, done, errors);
    if !Ends(k) && done + 1 < ErrorQueue {
      var e := errors || k == Entry;
      DrainEndsOnlyLast(NextForm(f, k), rs, done + 1, e);
      NoEndCons(k, DrainFrom(NextForm(f, k), rs, done + 1, e).kinds);
    }
  }

  lemma NoEndCons(k: StepKind, kinds: seq<StepKind>)
    requires !Ends(k) && forall i :: 0 <= i < |kinds| - 1 ==> !Ends(kinds[i])
    ensures forall i :: 0 <= i < |[k] + kinds| - 1 ==> !Ends(([k] + kinds)[i])
  {
    forall i | 1 <= i < |[k] + kinds| - 1
      ensures !Ends(([k] + kinds)[i])
    {
      assert ([k] + kinds)[i] == kinds[i - 1];
    }
  }

  /** A loop that no read ended ran all the reads it had left. */
  lemma {:induction false} DrainRunsOut(f: ErrorForm, rs: seq<Reading>, done: nat, errors: bool)
    requires done < ErrorQueue
    ensures var d := DrainFrom(f, rs, done, errors);
      !Ends(d.kinds[|d.kinds| - 1]) ==> |d.kinds| == ErrorQueue - done
    decreases ErrorQueue - done
  {
    var k := Under(f, ReadingAt(rs, done));
    if !Ends(k) && done + 1 < ErrorQueue {
      var e := errors || k == Entry;
      DrainRunsOut(NextForm(f, k), rs, done + 1, e);
      var d' := DrainFrom(NextForm(f, k), rs, done + 1, e);
      var d := DrainFrom(f, rs, done, errors);
      assert d.kinds == [k] + d'.kinds;
      assert d.kinds[|d.kinds| - 1] == d'.kinds[|d'.kinds| - 1];
    }
  }

  /** Errors once noted stay noted. */
  lemma {:induction false} DrainMonotone(f: ErrorForm, rs: seq<Reading>, done: nat)
    requires done <= ErrorQueue
    ensures DrainFrom(f, rs, done, true).errors
    decreases ErrorQueue - done
  {
    if done < ErrorQueue {
      var k := Under(f, ReadingAt(rs, done));
      if !Ends(k) {
        DrainMonotone(NextForm(f, k), rs, done + 1);
      }
    }
  }

  /** A reply carrying the 'no error' text, with a terminator, is seen as that text. */
  lemma ObserveNoError(f: ErrorForm, tail: string)
    requires tail == [] || (!IsSpace(tail[|tail| - 1]) && tail[|tail| - 1] != '\n')
    ensures Observe(Answer(NoErrorMark(f) + tail + "\n"), "\n") == Line(NoErrorMark(f) + tail)
  {
    var t := NoErrorMark(f) + tail;
    assert (t + "\n")[..|t|] == t;
    assert t[|t| - 1] != '\n';
    assert StripReply("\n", t + "\n") == t;
    StripNoSpace(t);
  }

  /** A 'no error' first reply ends the drain after one read, without an error. */
  lemma FirstSentinelStops(f: ErrorForm, rest: seq<Reply>, tail: string)
    requires tail == [] || (!IsSpace(tail[|tail| - 1]) && tail[|tail| - 1] != '\n')
    ensures DrainAll(f, [Answer(NoErrorMark(f) + tail + "\n")] + rest, "\n") == Drain(false, f, [f], [Sentinel])
  {
    ObserveNoError(f, tail);
    var t := NoErrorMark(f) + tail;
    assert t[..|NoErrorMark(f)|] == NoErrorMark(f);
    assert ObsAt(ObserveAll([Answer(t + "\n")] + rest, "\n"), 0) == Line(t);
    ReadingAtObs(ObserveAll([Answer(t + "\n")] + rest, "\n"), f, 0);
  }

  /** A modern read that times out is retried in the legacy form without reporting an error. */
  lemma ModernTimeoutFallsBack(rest: seq<Reply>, readStrip: string)
    ensures var d := DrainAll(ModernForm, [Timeout] + rest, readStrip);
      var d' := DrainFrom(LegacyForm, Readings(ObserveAll([Timeout] + rest, readStrip)), 1, false);
      d == Drain(d'.errors, d'.form, [ModernForm] + d'.forms, [Switched] + d'.kinds)
  {
    assert ObsAt(ObserveAll([Timeout] + rest, readStrip), 0) == TimedOut;
    ReadingAtObs(ObserveAll([Timeout] + rest, readStrip), ModernForm, 0);
  }

  /** A bare error code to the legacy query means a modern instrument: retry in the modern form. */
  lemma LegacyCodeSwitchesToModern(code: nat, rest: seq<Reply>)
    ensures var d := DrainAll(LegacyForm, [Answer(NatToString(code) + "\n")] + rest, "\n");
      var d' := DrainFrom(ModernForm, Readings(ObserveAll([Answer(NatToString(code) + "\n")] + rest, "\n")), 1, false);
      d == Drain(d'.errors, d'.form, [LegacyForm] + d'.forms, [Switched] + d'.kinds)
  {
    var s := NatToString(code);
    assert (s + "\n")[..|s|] == s;
    assert (s + "\n")[|s|] == '\n';
    assert s[|s| - 1] != '\n';
    StripReplyKeepsClean("\n", s);
    assert StripReply("\n", s + "\n") == s;
    StripNoSpace(s);
    assert Observe(Answer(s + "\n"), "\n") == Line(s);
    assert ObsAt(ObserveAll([Answer(s + "\n")] + rest, "\n"), 0) == Line(s);
    ReadingAtObs(ObserveAll([Answer(s + "\n")] + rest, "\n"), LegacyForm, 0);
  }

  /** A device that only ever reports errors is read ErrorQueue times and reports an error. */
  lemma {:induction false} EndlessErrorsUseWholeQueue(f: ErrorForm, obs: seq<Observation>, done: nat, errors: bool, entry: string)
    requires done <= ErrorQueue
    requires entry != [] && entry[0] == '-'
    requires forall i :: 0 <= i < |obs| ==> obs[i] == Line(entry)
    requires |obs| >= ErrorQueue
    requires done < ErrorQueue || errors
    ensures DrainFrom(f, Readings(obs), done, errors)
         == Drain(true, f, Repeat(f, ErrorQueue - done), Repeat(Entry, ErrorQueue - done))
    decreases ErrorQueue - done
  {
    if done < ErrorQueue {
      assert ObsAt(obs, done) == Line(entry);
      ReadingAtObs(obs, f, done);
      assert !StartsWith(entry, NoErrorMark(f)) by {
        if |NoErrorMark(f)| <= |entry| {
          assert entry[..|NoErrorMark(f)|][0] == '-';
        }
      }
      assert Classify(f, ObsAt(obs, done)) == Entry;
      EndlessErrorsUseWholeQueue(f, obs, done + 1, true, entry);
    }
  }

  function Repeat<T>(x: T, n: nat): (r: seq<T>)
    ensures |r| == n
    ensures forall i :: 0 <= i < n ==> r[i] == x
  {
    if n == 0 then [] else [x] + Repeat(x, n - 1)
  }
}
