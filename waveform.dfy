/**
 * Waveform decoding of the Keysight driver: the data format requested for a
 * source, the closed code tables of the preamble, the modern 24-field and the
 * legacy 10-number preamble, the centred sample window, the binary block decoded
 * by element width and signedness, the time and value axes over the reals, and
 * the digital bit lanes with their labels.
 */
module Waveform {
  import opened Results
  import opened Text
  import opened Scpi

  // ---------------------------------------------------------------- commands

  /** The host byte order; the instrument is told to send in the same order. */
  datatype ByteOrder = LittleEndian | BigEndian

  function ByteOrderCommand(host: ByteOrder): string {
    "WAVeform:BYTeorder " + (if host == BigEndian then "MSBFirst" else "LSBFirst")
  }

  /** The waveform source command: the channel as channelStr renders it. */
  function SourceCommand(channel: string): string {
    "WAVeform:SOURce " + ChannelStr(StrChannel(channel)).s
  }

  /** The data format the modern decoder asks for: BINary, BYTE or WORD. */
  function FormatName(channel: string): string {
    if StartsWith(channel, "HIST") then "BINary"
    else if channel == "POD1" || channel == "POD2" then "BYTE"
    else "WORD"
  }

  function FormatCommand(channel: string): (cmd: string)
    ensures StartsWith(cmd, "WAVeform:FORMat ")
  {
    "WAVeform:FORMat " + FormatName(channel)
  }

  /**
   * Histograms are read as BINary, exactly the two byte-wide pods as BYTE, and
   * every other source, PODALL and the bus channels included, as WORD.
   */
  lemma FormatByChannel(channel: string)
    ensures FormatName(channel) == "BINary" <==> StartsWith(channel, "HIST")
    ensures FormatName(channel) == "BYTE" <==> !StartsWith(channel, "HIST") && (channel == "POD1" || channel == "POD2")
    ensures FormatName(channel) == "WORD" <==> !StartsWith(channel, "HIST") && channel != "POD1" && channel != "POD2"
    ensures FormatName("PODALL") == "WORD"
  {
    assert !StartsWith("PODALL", "HIST") by { assert "PODALL"[..4][0] == 'P'; }
  }

  // ---------------------------------------------------------------- code tables

  const WavForms: map<int, string> :=
    map[0 := "ASCii", 1 := "BYTE", 2 := "WORD", 3 := "LONG", 4 := "LONGLONG", 5 := "FLOat"]
  const AcqTypes: map<int, string> :=
    map[1 := "RAW", 2 := "AVERage", 3 := "VHIStogram", 4 := "HHIStogram", 6 := "INTerpolate",
        9 := "DIGITAL", 10 := "PDETect"]
  const AcqModes: map<int, string> := map[0 := "RTIMe", 1 := "ETIMe", 2 := "SEGMented", 3 := "PDETect"]
  const Couplings: map<int, string> := map[0 := "AC", 1 := "DC", 2 := "DCFIFTY", 3 := "LFREJECT"]
  const Units: map<int, string> :=
    map[0 := "UNKNOWN", 1 := "VOLT", 2 := "SECOND", 3 := "CONSTANT", 4 := "AMP", 5 := "DECIBEL",
        6 := "HERTZ", 7 := "WATT"]
  const UnitAbbrevs: map<int, string> :=
    map[0 := "?", 1 := "V", 2 := "s", 3 := "CONST.", 4 := "A", 5 := "dB", 6 := "Hz", 7 := "W"]
  const UnitAxes: map<int, string> :=
    map[0 := "UNKNOWN", 1 := "Voltage", 2 := "Time", 3 := "CONSTANT", 4 := "Current", 5 := "Decibels",
        6 := "Frequency", 7 := "Power"]

  /** The legacy firmware's tables. */
  const LegacyForms: map<int, string> := map[0 := "BYTE", 1 := "WORD", 4 := "ASCii"]
  const LegacyAcqTypes: map<int, string> := map[0 := "NORMal", 1 := "PEAK", 2 := "AVERage", 3 := "HRESolution"]

  /** int(field) looked up in a table: ValueError for a bad literal, KeyError for an unknown code. */
  function Code(field: string, table: map<int, string>): (r: Result<int>)
    ensures r.Ok? <==> ParseInt(field).Some? && ParseInt(field).value in table
    ensures r.Ok? ==> r.value == ParseInt(field).value
    ensures r.Err? ==> r.error == (if ParseInt(field).None? then ValueError else KeyError)
  {
    match ParseInt(field)
    case None => Err(ValueError)
    case Some(c) => if c in table then Ok(c) else Err(KeyError)
  }

  /** The three unit tables know the same codes, so a unit that names itself also has an axis and a symbol. */
  lemma UnitTablesAgree()
    ensures Units.Keys == UnitAbbrevs.Keys == UnitAxes.Keys == {0, 1, 2, 3, 4, 5, 6, 7}
  {
  }

  // ---------------------------------------------------------------- modern preamble

  /** What one preamble entry of the metadata list shows: a field's text or a number. */
  datatype MetaValue = Text(text: string) | Number(number: real)

  datatype Meta = Meta(name: string, value: MetaValue)

  /** The numeric settings the decoder goes on to use. */
  datatype Preamble = Preamble(
    format: int, acqType: int, xUnits: int, yUnits: int,
    xIncrement: real, xOrigin: real, xReference: int,
    yIncrement: real, yOrigin: real, yReference: int,
    xDisplayRange: real, xDisplayOrigin: real)

  /** Every code of a parsed modern preamble is in its table. */
  predicate ValidPreamble(p: Preamble) {
    p.format in WavForms && p.acqType in AcqTypes && p.xUnits in Units && p.yUnits in Units
  }

  /** float(field) as a result. */
  function Real(field: string): (r: Result<real>)
    ensures r.Ok? <==> ParseFloat(field).Some?
    ensures r.Ok? ==> r.value == ParseFloat(field).value
    ensures r.Err? ==> r.error == ValueError
  {
    match ParseFloat(field)
    case None => Err(ValueError)
    case Some(x) => Ok(x)
  }

  /**
   * The 24 comma-separated fields of WAVeform:PREamble?, in the order
   * format, type, points, count, x increment, x origin, x reference, y increment,
   * y origin, y reference, coupling, x display range, x display origin, y display
   * range, y display origin, date, time, frame model, acquire mode, completion,
   * x units, y units, max bandwidth limit, min bandwidth limit. The six codes are
   * looked up in the order the metadata list shows them, then the numbers are
   * converted.
   */
  function ParsePreambleFields(f: seq<string>, source: string, view: string): (r: Result<(Preamble, seq<Meta>)>)
    ensures r.Ok? ==> |f| == 24 && ValidPreamble(r.value.0) && |r.value.1| == 26
    ensures |f| != 24 ==> r == Err(ValueError)
    ensures r.Ok? ==> (ParseInt(f[0]) == Some(r.value.0.format) && ParseInt(f[1]) == Some(r.value.0.acqType)
                       && ParseInt(f[20]) == Some(r.value.0.xUnits) && ParseInt(f[21]) == Some(r.value.0.yUnits))
    ensures r.Ok? ==> (r.value.1[3] == Meta("Waveform source", Text(source))
                       && r.value.1[4] == Meta("Waveform view", Text(view))
                       && r.value.1[5] == Meta("Waveform format", Text(WavForms[r.value.0.format])))
  {
    if |f| != 24 then Err(ValueError)
    else
      var c :- PreambleCodes(f);
      var meta := PreambleMeta(f, source, view, c);
      var p :- PreambleNumbers(f, c);
      Ok((p, meta))
  }

  /** The six codes of a modern preamble, in the order the metadata list looks them up. */
  datatype Codes = Codes(format: int, mode: int, acq: int, coupling: int, xUnits: int, yUnits: int)

  predicate ValidCodes(c: Codes) {
    c.format in WavForms && c.mode in AcqModes && c.acq in AcqTypes && c.coupling in Couplings
    && c.xUnits in Units && c.yUnits in Units
  }

  function PreambleCodes(f: seq<string>): (r: Result<Codes>)
    requires |f| == 24
    ensures r.Ok? ==> ValidCodes(r.value)
    ensures r.Ok? ==> (ParseInt(f[0]) == Some(r.value.format) && ParseInt(f[1]) == Some(r.value.acq)
                       && ParseInt(f[20]) == Some(r.value.xUnits) && ParseInt(f[21]) == Some(r.value.yUnits))
  {
    var format :- Code(f[0], WavForms);
    var mode :- Code(f[18], AcqModes);
    var acq :- Code(f[1], AcqTypes);
    var coupling :- Code(f[10], Couplings);
    var xu :- Code(f[20], Units);
    var yu :- Code(f[21], Units);
    Ok(Codes(format, mode, acq, coupling, xu, yu))
  }

  /** The 26 metadata entries shown for a modern preamble, in order. */
  function PreambleMeta(f: seq<string>, source: string, view: string, c: Codes): (m: seq<Meta>)
    requires |f| == 24 && ValidCodes(c)
    ensures |m| == 26
    ensures m[3] == Meta("Waveform source", Text(source)) && m[4] == Meta("Waveform view", Text(view))
    ensures m[5] == Meta("Waveform format", Text(WavForms[c.format]))
  {
    var head := MetaHead(f, source, view, c);
    head + MetaScales(f) + MetaTail(f, c)
  }

  /** Date, time, frame, source, view and the four coded settings. */
  function MetaHead(f: seq<string>, source: string, view: string, c: Codes): (m: seq<Meta>)
    requires |f| == 24 && ValidCodes(c)
    ensures |m| == 9
    ensures m[3] == Meta("Waveform source", Text(source)) && m[4] == Meta("Waveform view", Text(view))
    ensures m[5] == Meta("Waveform format", Text(WavForms[c.format]))
  {
    [Meta("Date", Text(f[15])), Meta("Time", Text(f[16])), Meta("Frame model #", Text(f[17])),
     Meta("Waveform source", Text(source)), Meta("Waveform view", Text(view)),
     Meta("Waveform format", Text(WavForms[c.format])), Meta("Acquire mode", Text(AcqModes[c.mode])),
     Meta("Acquire type", Text(AcqTypes[c.acq])), Meta("Coupling", Text(Couplings[c.coupling]))]
  }

  /** The point count, average count and the axis scales, as given. */
  function MetaScales(f: seq<string>): (m: seq<Meta>)
    requires |f| == 24
    ensures |m| == 8
  {
    [Meta("Waveform points available", Text(f[2])), Meta("Waveform average count", Text(f[3])),
     Meta("Waveform X increment", Text(f[4])), Meta("Waveform X origin", Text(f[5])),
     Meta("Waveform X reference", Text(f[6])), Meta("Waveform Y increment", Text(f[7])),
     Meta("Waveform Y origin", Text(f[8])), Meta("Waveform Y reference", Text(f[9]))]
  }

  /** The display ranges, the units, the bandwidth limits and the completion. */
  function MetaTail(f: seq<string>, c: Codes): (m: seq<Meta>)
    requires |f| == 24 && ValidCodes(c)
    ensures |m| == 9
  {
    [Meta("Waveform X display range", Text(f[11])), Meta("Waveform X display origin", Text(f[12])),
     Meta("Waveform Y display range", Text(f[13])), Meta("Waveform Y display origin", Text(f[14])),
     Meta("Waveform X units", Text(Units[c.xUnits])), Meta("Waveform Y units", Text(Units[c.yUnits])),
     Meta("Max BW limit", Text(f[22])), Meta("Min BW limit", Text(f[23])),
     Meta("Completion pct", Text(f[19]))]
  }

  /** The numbers the decoder uses; x and y reference go through float and are truncated. */
  function PreambleNumbers(f: seq<string>, c: Codes): (r: Result<Preamble>)
    requires |f| == 24 && ValidCodes(c)
    ensures r.Ok? ==> ValidPreamble(r.value)
    ensures r.Ok? ==> (r.value.format == c.format && r.value.acqType == c.acq
                       && r.value.xUnits == c.xUnits && r.value.yUnits == c.yUnits)
  {
    var xinc :- Real(f[4]);
    var xorig :- Real(f[5]);
    var xref :- Real(f[6]);
    var yinc :- Real(f[7]);
    var yorig :- Real(f[8]);
    var yref :- Real(f[9]);
    var xdr :- Real(f[11]);
    var xdo :- Real(f[12]);
    Ok(Preamble(c.format, c.acq, c.xUnits, c.yUnits, xinc, xorig, Trunc(xref), yinc, yorig, Trunc(yref), xdr, xdo))
  }

  function ParsePreamble(text: string, source: string, view: string): Result<(Preamble, seq<Meta>)> {
    ParsePreambleFields(Split(text, ','), source, view)
  }

  /** A preamble written as its comma-free fields joined by commas parses field by field. */
  lemma PreambleFieldsRoundTrip(f: seq<string>, source: string, view: string)
    requires |f| >= 1
    requires forall i :: 0 <= i < |f| ==> ',' !in f[i]
    ensures ParsePreamble(Join(f, ','), source, view) == ParsePreambleFields(f, source, view)
  {
    SplitJoin(f, ',');
  }

  /** The first failing code lookup decides the error; an unknown format code is a KeyError. */
  lemma UnknownFormatIsKeyError(f: seq<string>, source: string, view: string)
    requires |f| == 24 && ParseInt(f[0]).Some? && ParseInt(f[0]).value !in WavForms
    ensures ParsePreambleFields(f, source, view) == Err(KeyError)
  {
  }

  // ---------------------------------------------------------------- window

  /**
   * The sample at the centre of the display:
   * int(((x display range / 2 + x display origin) - x origin) / x increment).
   */
  function MidPoint(p: Preamble): (r: Result<int>)
    ensures r.Err? <==> p.xIncrement == 0.0
    ensures r.Err? ==> r.error == ZeroDivision
  {
    if p.xIncrement == 0.0 then Err(ZeroDivision)
    else Ok(Trunc(((p.xDisplayRange / 2.0 + p.xDisplayOrigin) - p.xOrigin) / p.xIncrement))
  }

  /** The first sample index requested and the suffix added to WAVeform:DATA?. */
  datatype Window = Window(start: int, suffix: string)

  /** With points given for a non-histogram source, the window is centred on the display. */
  function DataWindow(channel: string, points: Option<int>, p: Preamble): Result<Window> {
    if points.None? || StartsWith(channel, "HIST") then Ok(Window(0, ""))
    else
      var mid :- MidPoint(p);
      var start := mid - points.value / 2;
      Ok(Window(start, " " + IntToString(start) + "," + IntToString(points.value)))
  }

  /** Without points, or for a histogram, everything is read from sample 0 and no suffix is sent. */
  lemma WholeRecordWindow(channel: string, points: Option<int>, p: Preamble)
    requires points.None? || StartsWith(channel, "HIST")
    ensures DataWindow(channel, points, p) == Ok(Window(0, ""))
  {
  }

  /**
   * A window of n >= 1 points holds the midpoint, n div 2 samples after its start,
   * and its suffix carries the start and the count as decimal integers.
   */
  lemma WindowStart(channel: string, n: int, p: Preamble)
    requires !StartsWith(channel, "HIST") && p.xIncrement != 0.0
    ensures DataWindow(channel, Some(n), p).Ok?
    ensures DataWindow(channel, Some(n), p).value.start == MidPoint(p).value - n / 2
  {
  }

  lemma WindowCentred(channel: string, n: int, p: Preamble)
    requires !StartsWith(channel, "HIST") && p.xIncrement != 0.0 && n >= 1
    ensures DataWindow(channel, Some(n), p).Ok?
    ensures var w := DataWindow(channel, Some(n), p).value;
      var mid := MidPoint(p).value;
      w.start <= mid < w.start + n && mid - w.start == n / 2
      && w.suffix != [] && w.suffix[0] == ' '
      && Split(w.suffix[1..], ',') == [IntToString(w.start), IntToString(n)]
      && ParseInt(IntToString(w.start)) == Some(w.start) && ParseInt(IntToString(n)) == Some(n)
  {
    WindowStart(channel, n, p);
    var w := DataWindow(channel, Some(n), p).value;
    assert w.suffix == " " + IntToString(w.start) + "," + IntToString(n);
    SuffixFields(w.start, n);
  }

  /** The suffix " start,count" splits back into the two decimal integers. */
  lemma {:induction false} SuffixFields(start: int, n: int)
    requires n >= 0
    ensures var s := " " + IntToString(start) + "," + IntToString(n);
      s[0] == ' ' && Split(s[1..], ',') == [IntToString(start), IntToString(n)]
      && ParseInt(IntToString(start)) == Some(start) && ParseInt(IntToString(n)) == Some(n)
  {
    var a := IntToString(start);
    var b := IntToString(n);
    var s := " " + a + "," + b;
    assert s[1..] == a + [','] + b;
    assert ',' !in a && ',' !in b by {
      assert forall i :: 0 <= i < |b| ==> IsDigit(b[i]);
      forall j | 0 <= j < |a|
        ensures a[j] != ','
      {
        if j > 0 && start < 0 {
          assert a[j] == a[1..][j - 1];
        }
      }
    }
    assert Join([a, b], ',') == a + [','] + b;
    SplitJoin([a, b], ',');
    IntToStringParses(start);
    IntToStringParses(n);
  }

  // ---------------------------------------------------------------- binary block

  /** How one element of the block is stored: a signed integer of some bytes, or an IEEE single. */
  datatype SampleKind = SignedInt(width: nat) | Float32

  function Width(k: SampleKind): nat {
    match k
    case SignedInt(w) => w
    case Float32 => 4
  }

  /** The bits one element holds, used as the lane count of digital data. */
  function BitsOf(k: SampleKind): nat {
    8 * Width(k)
  }

  /**
   * Format codes 1..5 are BYTE, WORD, LONG (32 bits), LONGLONG and FLOat; ASCii
   * aborts with a RuntimeError, and an unknown code fails the name lookup in the
   * error message itself.
   */
  function FormatKind(code: int): (r: Result<SampleKind>)
    ensures r.Ok? <==> 1 <= code <= 5
    ensures r.Ok? ==> Width(r.value) >= 1 && (r.value.Float32? <==> code == 5)
    ensures r.Ok? && code != 5 ==> Width(r.value) == [1, 2, 4, 8][code - 1]
    ensures r.Err? ==> r.error == (if code in WavForms then RuntimeError else KeyError)
  {
    if code == 1 then Ok(SignedInt(1))
    else if code == 2 then Ok(SignedInt(2))
    else if code == 3 then Ok(SignedInt(4))
    else if code == 4 then Ok(SignedInt(8))
    else if code == 5 then Ok(Float32)
    else if code in WavForms then Err(RuntimeError)
    else Err(KeyError)
  }

  function Pow256(w: nat): (p: nat)
    ensures p >= 1
  {
    if w == 0 then 1 else 256 * Pow256(w - 1)
  }

  /** The unsigned value of bytes stored least significant first. */
  function FromLE(b: seq<byte>): (n: nat)
    ensures n < Pow256(|b|)
  {
    if b == [] then 0 else b[0] + 256 * FromLE(b[1..])
  }

  /** n as w bytes, least significant first. */
  function ToLE(n: nat, w: nat): (b: seq<byte>)
    ensures |b| == w
  {
    if w == 0 then [] else [n % 256] + ToLE(n / 256, w - 1)
  }

  function Reverse<T>(s: seq<T>): (r: seq<T>)
    ensures |r| == |s|
    ensures forall i :: 0 <= i < |s| ==> r[i] == s[|s| - 1 - i]
  {
    if s == [] then [] else Reverse(s[1..]) + [s[0]]
  }

  lemma ReverseReverse<T>(s: seq<T>)
    ensures Reverse(Reverse(s)) == s
  {
    assert forall i :: 0 <= i < |s| ==> Reverse(Reverse(s))[i] == s[i];
  }

  /** Bytes of one element in least-significant-first order, whatever the wire order. */
  function LittleFirst(chunk: seq<byte>, order: ByteOrder): seq<byte> {
    if order == LittleEndian then chunk else Reverse(chunk)
  }

  /** Two's complement reading of a w-byte unsigned value. */
  function SignedOf(u: int, w: nat): int
    requires w >= 1
  {
    if u >= 128 * Pow256(w - 1) then u - Pow256(w) else u
  }

  /** The range a signed w-byte element can hold. */
  predicate InSignedRange(v: int, w: nat)
    requires w >= 1
  {
    -128 * Pow256(w - 1) <= v < 128 * Pow256(w - 1)
  }

  /** The wire bytes of a signed w-byte element. */
  function EncodeSigned(v: int, w: nat, order: ByteOrder): (b: seq<byte>)
    requires w >= 1 && InSignedRange(v, w)
    ensures |b| == w
  {
    var le := ToLE(if v < 0 then v + Pow256(w) else v, w);
    if order == LittleEndian then le else Reverse(le)
  }

  function DecodeSigned(chunk: seq<byte>, order: ByteOrder): (v: int)
    requires |chunk| >= 1
    ensures InSignedRange(v, |chunk|)
  {
    SignedOf(FromLE(LittleFirst(chunk, order)), |chunk|)
  }

  lemma {:induction false} FromToLE(n: nat, w: nat)
    requires n < Pow256(w)
    ensures FromLE(ToLE(n, w)) == n
  {
    if w > 0 {
      assert n / 256 < Pow256(w - 1);
      FromToLE(n / 256, w - 1);
      assert ToLE(n, w)[1..] == ToLE(n / 256, w - 1);
    }
  }

  /** Decoding inverts encoding for every value a signed element can hold, in either byte order. */
  lemma DecodeEncodeSigned(v: int, w: nat, order: ByteOrder)
    requires w >= 1 && InSignedRange(v, w)
    ensures DecodeSigned(EncodeSigned(v, w, order), order) == v
  {
    var u := if v < 0 then v + Pow256(w) else v;
    assert LittleFirst(EncodeSigned(v, w, order), order) == ToLE(u, w) by {
      if order == BigEndian {
        ReverseReverse(ToLE(u, w));
      }
    }
    FromToLE(u, w);
    SignedOfUnsigned(v, w);
  }

  /** The two's complement reading of the unsigned form of v is v. */
  lemma SignedOfUnsigned(v: int, w: nat)
    requires w >= 1 && InSignedRange(v, w)
    ensures var u := if v < 0 then v + Pow256(w) else v;
      0 <= u < Pow256(w) && SignedOf(u, w) == v
  {
    assert Pow256(w) == 256 * Pow256(w - 1);
  }

  /** The decoded block: integers, or single-precision floats kept as their raw bytes. */
  datatype Samples = Ints(values: seq<int>) | Floats(raw: seq<seq<byte>>)

  function Count(s: Samples): nat {
    match s
    case Ints(v) => |v|
    case Floats(r) => |r|
  }

  /** n bytes make up whole elements of w bytes each. */
  predicate Whole(n: nat, w: nat)
    requires w >= 1
    decreases n
  {
    n == 0 || (n >= w && Whole(n - w, w))
  }

  lemma {:induction false} WholeIsMod(n: nat, w: nat)
    requires w >= 1
    ensures Whole(n, w) <==> n % w == 0
    decreases n
  {
    if n >= w {
      WholeIsMod(n - w, w);
      DivModUnique(n, w, (n - w) / w + 1, (n - w) % w);
    } else if n > 0 {
      DivModUnique(n, w, 0, n);
    }
  }

  /** Taking one element off a block of whole elements leaves one element fewer. */
  lemma ChunkCount(n: nat, w: nat)
    requires w >= 1 && n > 0 && n % w == 0
    ensures n >= w && (n - w) % w == 0 && (n - w) / w == n / w - 1
  {
    var q := n / w;
    assert n == q * w;
    if q < 1 {
      assert false;
    }
    assert n - w == (q - 1) * w;
    DivModUnique(n - w, w, q - 1, 0);
  }

  /** The block cut into consecutive elements of w bytes. */
  function Chunks(data: seq<byte>, w: nat): (cs: seq<seq<byte>>)
    requires w >= 1 && Whole(|data|, w)
    ensures forall i :: 0 <= i < |cs| ==> |cs[i]| == w
    decreases |data|
  {
    if data == [] then [] else [data[..w]] + Chunks(data[w..], w)
  }

  /** A block of whole elements holds |data| / w of them. */
  lemma {:induction false} ChunksCount(data: seq<byte>, w: nat)
    requires w >= 1 && Whole(|data|, w)
    ensures |Chunks(data, w)| == |data| / w
    decreases |data|
  {
    if data != [] {
      WholeIsMod(|data|, w);
      ChunkCount(|data|, w);
      ChunksCount(data[w..], w);
    }
  }

  /** Elements written one after the other. */
  function Flatten(cs: seq<seq<byte>>): seq<byte> {
    if cs == [] then [] else cs[0] + Flatten(cs[1..])
  }

  /** Cutting elements of w bytes written one after the other gives them back. */
  lemma {:induction false} ChunksFlatten(cs: seq<seq<byte>>, w: nat)
    requires w >= 1 && forall i :: 0 <= i < |cs| ==> |cs[i]| == w
    ensures Whole(|Flatten(cs)|, w) && Chunks(Flatten(cs), w) == cs
  {
    if cs != [] {
      ChunksFlatten(cs[1..], w);
      var f := Flatten(cs);
      assert f == cs[0] + Flatten(cs[1..]);
      assert f[..w] == cs[0] && f[w..] == Flatten(cs[1..]);
      assert cs == [cs[0]] + cs[1..];
    }
  }

  function DecodeInts(data: seq<byte>, w: nat, order: ByteOrder): seq<int>
    requires w >= 1 && Whole(|data|, w)
  {
    var cs := Chunks(data, w);
    seq(|cs|, i requires 0 <= i < |cs| => DecodeSigned(cs[i], order))
  }

  /** struct.unpack of the whole block: it must hold a whole number of elements. */
  function Unpack(data: seq<byte>, k: SampleKind, order: ByteOrder): (r: Result<Samples>)
    requires Width(k) >= 1
    ensures r.Ok? <==> |data| % Width(k) == 0
    ensures r.Ok? ==> Count(r.value) == |data| / Width(k) && (r.value.Ints? <==> k.SignedInt?)
    ensures r.Err? ==> r.error == StructError
  {
    if |data| % Width(k) != 0 then Err(StructError)
    else
      WholeIsMod(|data|, Width(k));
      ChunksCount(data, Width(k));
      match k
      case SignedInt(w) => Ok(Ints(DecodeInts(data, w, order)))
      case Float32 => Ok(Floats(Chunks(data, 4)))
  }

  /** The values written as a block, each as w bytes in the given order. */
  function EncodeInts(values: seq<int>, w: nat, order: ByteOrder): seq<byte>
    requires w >= 1 && forall i :: 0 <= i < |values| ==> InSignedRange(values[i], w)
  {
    Flatten(seq(|values|, i requires 0 <= i < |values| => EncodeSigned(values[i], w, order)))
  }

  /** A block written element by element in the host order unpacks to the same elements. */
  lemma UnpackEncodeInts(values: seq<int>, w: nat, order: ByteOrder)
    requires w >= 1 && forall i :: 0 <= i < |values| ==> InSignedRange(values[i], w)
    ensures |EncodeInts(values, w, order)| % w == 0
    ensures Unpack(EncodeInts(values, w, order), SignedInt(w), order) == Ok(Ints(values))
  {
    DecodeEncodeInts(values, w, order);
    WholeIsMod(|EncodeInts(values, w, order)|, w);
  }

  lemma DecodeEncodeInts(values: seq<int>, w: nat, order: ByteOrder)
    requires w >= 1 && forall i :: 0 <= i < |values| ==> InSignedRange(values[i], w)
    ensures Whole(|EncodeInts(values, w, order)|, w)
    ensures DecodeInts(EncodeInts(values, w, order), w, order) == values
  {
    var cs := seq(|values|, i requires 0 <= i < |values| => EncodeSigned(values[i], w, order));
    var data := EncodeInts(values, w, order);
    assert data == Flatten(cs);
    ChunksFlatten(cs, w);
    var decoded := DecodeInts(data, w, order);
    assert |decoded| == |values|;
    forall i | 0 <= i < |values|
      ensures decoded[i] == values[i]
    {
      DecodeEncodeSigned(values[i], w, order);
    }
  }

  // ---------------------------------------------------------------- axes

  /**
   * The time (or, for histograms, voltage) of each sample:
   * x[i] = (i - x reference + start) * x increment + x origin.
   */
  function TimeAxis(n: nat, xref: int, start: int, xinc: real, xorig: real): (x: seq<real>)
    ensures |x| == n
  {
    seq(n, i => SampleTime(i - xref + start, xinc, xorig))
  }

  /** The time of the sample k increments past the origin. */
  function SampleTime(k: int, xinc: real, xorig: real): real {
    k as real * xinc + xorig
  }

  /** Samples are evenly spaced by the increment, and the reference sample sits at the origin. */
  lemma TimeAxisUniform(n: nat, xref: int, start: int, xinc: real, xorig: real)
    ensures var x := TimeAxis(n, xref, start, xinc, xorig);
      (forall i :: 0 <= i < n - 1 ==> x[i + 1] - x[i] == xinc)
      && (0 <= xref - start < n ==> x[xref - start] == xorig)
  {
    var x := TimeAxis(n, xref, start, xinc, xorig);
    forall i | 0 <= i < n - 1
      ensures x[i + 1] - x[i] == xinc
    {
      NextSampleTime(i - xref + start, xinc, xorig);
    }
    if 0 <= xref - start < n {
      assert x[xref - start] == SampleTime(0, xinc, xorig);
    }
  }

  lemma NextSampleTime(k: int, xinc: real, xorig: real)
    ensures SampleTime(k + 1, xinc, xorig) - SampleTime(k, xinc, xorig) == xinc
  {
    assert (k + 1) as real == k as real + 1.0;
  }

  /** Sample number n div 2 of a centred window is the midpoint sample. */
  lemma CentreSampleTime(channel: string, n: int, p: Preamble)
    requires !StartsWith(channel, "HIST") && p.xIncrement != 0.0 && n >= 1
    ensures DataWindow(channel, Some(n), p).Ok?
    ensures TimeAxis(n, p.xReference, DataWindow(channel, Some(n), p).value.start, p.xIncrement, p.xOrigin)[n / 2]
         == SampleTime(MidPoint(p).value - p.xReference, p.xIncrement, p.xOrigin)
  {
    WindowStart(channel, n, p);
  }

  /** Vertical scaling: y = (v - y reference) * y increment + y origin. */
  function Volts(values: seq<int>, yref: int, yinc: real, yorig: real): (y: seq<real>)
    ensures |y| == |values|
  {
    seq(|values|, i requires 0 <= i < |values| => (values[i] - yref) as real * yinc + yorig)
  }

  /** With a non-zero increment, scaling loses nothing: each raw value is recovered from its voltage. */
  lemma VoltsInvertible(values: seq<int>, yref: int, yinc: real, yorig: real)
    requires yinc != 0.0
    ensures var y := Volts(values, yref, yinc, yorig);
      forall i :: 0 <= i < |values| ==> (y[i] - yorig) / yinc + yref as real == values[i] as real
  {
    var y := Volts(values, yref, yinc, yorig);
    forall i | 0 <= i < |values|
      ensures (y[i] - yorig) / yinc + yref as real == values[i] as real
    {
      var d := (values[i] - yref) as real;
      assert y[i] - yorig == d * yinc;
      assert (d * yinc) / yinc == d;
    }
  }

  /** With a positive increment, scaling keeps the order of the raw values. */
  lemma VoltsMonotone(values: seq<int>, yref: int, yinc: real, yorig: real, i: nat, j: nat)
    requires yinc > 0.0 && i < |values| && j < |values| && values[i] <= values[j]
    ensures Volts(values, yref, yinc, yorig)[i] <= Volts(values, yref, yinc, yorig)[j]
  {
    var a := (values[i] - yref) as real;
    var b := (values[j] - yref) as real;
    assert a <= b;
    assert a * yinc <= b * yinc;
  }

  // ---------------------------------------------------------------- digital lanes

  function Pow2(n: nat): (p: nat)
    ensures p >= 1
  {
    if n == 0 then 1 else 2 * Pow2(n - 1)
  }

  /** (v >> ch) & 1 for an integer of any sign: shifts floor, the mask keeps the parity. */
  function Bit(v: int, ch: nat): (b: int)
    ensures b == 0 || b == 1
  {
    (v / Pow2(ch)) % 2
  }

  /** One lane: bit ch of every sample. */
  function Lane(values: seq<int>, ch: nat): (lane: seq<int>)
    ensures |lane| == |values|
  {
    seq(|values|, i requires 0 <= i < |values| => Bit(values[i], ch))
  }

  /** The lanes 0..bits-1, lane ch holding bit ch of every sample. */
  function Lanes(values: seq<int>, bits: nat): (y: seq<seq<int>>)
    ensures |y| == bits
  {
    seq(bits, ch requires 0 <= ch < bits => Lane(values, ch))
  }

  /** The number the lanes of sample i spell, lane ch weighing 2^ch. */
  function Weigh(y: seq<seq<int>>, i: nat, n: nat): int
    requires n <= |y| && forall ch :: 0 <= ch < |y| ==> i < |y[ch]|
  {
    if n == 0 then 0 else Weigh(y, i, n - 1) + y[n - 1][i] * Pow2(n - 1)
  }

  lemma DivModUnique(v: int, m: int, q: int, r: int)
    requires m > 0 && v == q * m + r && 0 <= r < m
    ensures v / m == q && v % m == r
  {
    var q0 := v / m;
    var r0 := v % m;
    assert (q0 - q) * m == r - r0;
    if q0 > q {
      MulAtLeast(q0 - q, m);
      assert false;
    }
    if q0 < q {
      MulAtLeast(q - q0, m);
      assert false;
    }
  }

  lemma MulAtLeast(k: int, m: int)
    requires k >= 1 && m > 0
    ensures k * m >= m
  {
    assert k * m == (k - 1) * m + m;
    assert (k - 1) * m >= 0;
  }

  /** v mod 2^(n+1) is v mod 2^n plus bit n weighed by 2^n. */
  lemma ModNextBit(v: int, n: nat)
    ensures v % Pow2(n + 1) == v % Pow2(n) + Bit(v, n) * Pow2(n)
  {
    assert Pow2(n + 1) == 2 * Pow2(n);
    ModDouble(v, Pow2(n));
  }

  /** v mod 2m is v mod m, plus m when the quotient by m is odd. */
  lemma ModDouble(v: int, m: int)
    requires m > 0
    ensures v % (2 * m) == v % m + ((v / m) % 2) * m
  {
    var q := v / m;
    var r := v % m;
    var h := q / 2;
    var b := q % 2;
    assert v == q * m + r;
    assert q == h * 2 + b;
    RegroupHalves(h, b, m);
    if b == 0 {
      DivModUnique(v, 2 * m, h, r);
    } else {
      DivModUnique(v, 2 * m, h, m + r);
    }
  }

  lemma RegroupHalves(h: int, b: int, m: int)
    ensures (h * 2 + b) * m == h * (2 * m) + b * m
  {
  }

  /** The low n bits of v, read back from its lanes, are v mod 2^n. */
  lemma {:induction false} BitsReconstruct(values: seq<int>, bits: nat, i: nat, n: nat)
    requires i < |values| && n <= bits
    ensures Weigh(Lanes(values, bits), i, n) == values[i] % Pow2(n)
  {
    var y := Lanes(values, bits);
    if n > 0 {
      BitsReconstruct(values, bits, i, n - 1);
      assert y[n - 1][i] == Bit(values[i], n - 1);
      ModNextBit(values[i], n - 1);
    }
  }

  /** Every sample that fits in the lane count is spelled exactly by its lanes. */
  lemma LanesSpellSample(values: seq<int>, bits: nat, i: nat)
    requires i < |values| && 0 <= values[i] < Pow2(bits)
    ensures Weigh(Lanes(values, bits), i, bits) == values[i]
  {
    BitsReconstruct(values, bits, i, bits);
    DivModUnique(values[i], Pow2(bits), 0, values[i]);
  }

  /** Every bit at or above position 8 of a byte is zero, so lanes 8..15 of unsigned bytes are all zero. */
  lemma HighLanesOfBytesZero(values: seq<int>, ch: nat)
    requires ch >= 8 && forall i :: 0 <= i < |values| ==> 0 <= values[i] < 256
    ensures forall i :: 0 <= i < |values| ==> Lane(values, ch)[i] == 0
  {
    Pow2AtLeast(ch);
    forall i | 0 <= i < |values|
      ensures Lane(values, ch)[i] == 0
    {
      SmallBitZero(values[i], ch);
    }
  }

  /** A value below 2^ch has bit ch clear. */
  lemma SmallBitZero(v: int, ch: nat)
    requires 0 <= v < Pow2(ch)
    ensures Bit(v, ch) == 0
  {
    DivModUnique(v, Pow2(ch), 0, v);
  }

  lemma {:induction false} Pow2AtLeast(ch: nat)
    requires ch >= 8
    ensures Pow2(ch) >= 256
  {
    if ch > 8 {
      Pow2AtLeast(ch - 1);
    } else {
      assert Pow2(8) == 256;
    }
  }

  /** The lane array filled one lane at a time, as the decoder's lane loop does. */
  method BitLanes(values: seq<int>, bits: nat) returns (y: seq<seq<int>>)
    ensures y == Lanes(values, bits)
  {
    var a := new seq<int>[bits];
    for ch := 0 to bits
      invariant forall c :: 0 <= c < ch ==> a[c] == Lane(values, c)
    {
      a[ch] := Lane(values, ch);
    }
    y := a[..];
  }

  /** The header of a pod: Time then D{(pod-1)*bits + ch} for each lane. */
  function LaneLabels(pod: int, bits: nat): (h: seq<string>)
    ensures |h| == bits + 1 && h[0] == "Time (s)"
  {
    ["Time (s)"] + NumberedLabels((pod - 1) * bits, bits)
  }

  /** D{first}, D{first + 1}, ..., n labels. */
  function NumberedLabels(first: int, n: nat): (l: seq<string>)
    ensures |l| == n
  {
    seq(n, ch => "D" + IntToString(first + ch))
  }

  /** The labels of one numbering are pairwise distinct. */
  lemma NumberedLabelsDistinct(first: int, n: nat, a: nat, b: nat)
    requires a < n && b < n && a != b
    ensures NumberedLabels(first, n)[a] != NumberedLabels(first, n)[b]
  {
    NumberedLabelAt(first, n, a);
    NumberedLabelAt(first, n, b);
    NumberedLabelsDiffer(first + a, first + b);
  }

  lemma NumberedLabelAt(first: int, n: nat, ch: nat)
    requires ch < n
    ensures NumberedLabels(first, n)[ch] == "D" + IntToString(first + ch)
  {
  }

  /** A label names its lane number: "D" followed by the decimal number. */
  lemma LabelNames(pod: int, bits: nat, ch: nat)
    requires ch < bits
    ensures LaneLabels(pod, bits)[1 + ch][1..] == IntToString((pod - 1) * bits + ch)
    ensures LaneLabels(pod, bits)[1 + ch][0] == 'D'
  {
  }

  /** Distinct lanes of one pod get distinct labels. */
  lemma LaneLabelsDistinct(pod: int, bits: nat, a: nat, b: nat)
    requires a < bits && b < bits && a != b
    ensures LaneLabels(pod, bits)[1 + a] != LaneLabels(pod, bits)[1 + b]
  {
    NumberedLabelsDistinct((pod - 1) * bits, bits, a, b);
  }

  lemma IntToStringInjective(x: int, y: int)
    requires IntToString(x) == IntToString(y)
    ensures x == y
  {
    IntToStringParses(x);
    IntToStringParses(y);
  }

  /** POD2's lanes carry on where POD1's end: D0..D(bits-1), then Dbits..D(2 bits - 1). */
  lemma PodLabelsDisjoint(bits: nat, a: nat, b: nat)
    requires a < bits && b < bits
    ensures LaneLabels(1, bits)[1 + a][1..] == IntToString(a)
    ensures LaneLabels(2, bits)[1 + b][1..] == IntToString(bits + b)
    ensures LaneLabels(1, bits)[1 + a] != LaneLabels(2, bits)[1 + b]
  {
    LabelAt(1, bits, a, a);
    LabelAt(2, bits, b, bits + b);
    NumberedLabelsDiffer(a, bits + b);
  }

  lemma LabelAt(pod: int, bits: nat, ch: nat, k: int)
    requires ch < bits && k == (pod - 1) * bits + ch
    ensures LaneLabels(pod, bits)[1 + ch] == "D" + IntToString(k)
  {
  }

  lemma NumberedLabelsDiffer(x: int, y: int)
    requires x != y
    ensures ("D" + IntToString(x))[1..] == IntToString(x)
    ensures "D" + IntToString(x) != "D" + IntToString(y)
  {
    if "D" + IntToString(x) == "D" + IntToString(y) {
      assert ("D" + IntToString(x))[1..] == ("D" + IntToString(y))[1..];
      IntToStringInjective(x, y);
    }
  }

  /** int(channel[-1]): the digit a pod name ends with. */
  function LastDigit(channel: string): (r: Result<int>)
    requires channel != []
    ensures r.Ok? <==> IsDigit(channel[|channel| - 1])
    ensures r.Ok? ==> r.value == DigitValue(channel[|channel| - 1])
  {
    var c := channel[|channel| - 1];
    if IsDigit(c) then Ok(DigitValue(c)) else Err(ValueError)
  }

  /** The modern decoder's pod number: PODALL counts from lane 0, as pod 1. */
  function PodNumber(channel: string): Result<int>
    requires channel != []
  {
    if channel == "PODALL" then Ok(1) else LastDigit(channel)
  }

  // ---------------------------------------------------------------- decoded traces

  /** The vertical data: raw samples, per-bit lanes, or scaled values. */
  datatype YData = YRaw(samples: Samples) | YLanes(lanes: seq<seq<int>>) | YScaled(values: seq<real>)

  datatype Trace = Trace(x: seq<real>, y: YData, header: seq<string>, meta: seq<Meta>)

  /** "axis (symbol)" for a unit code, as the two column headers show it. */
  function UnitHeader(unit: int): string
    requires unit in Units
  {
    UnitTablesAgree();
    UnitAxes[unit] + " (" + UnitAbbrevs[unit] + ")"
  }

  /**
   * The y data of the modern decoder. Digital acquisitions (type 9) give raw bus
   * values, pod lanes, or, for any other source, nothing at all: the variables the
   * return reads were never assigned. Other acquisitions pass floats through and
   * scale integers.
   */
  function ModernY(channel: string, p: Preamble, k: SampleKind, s: Samples): (r: Result<(YData, seq<string>)>)
    requires ValidPreamble(p)
    ensures r.Ok? && r.value.0.YLanes? ==>
      p.acqType == 9 && StartsWith(channel, "POD") && s.Ints? && r.value.0.lanes == Lanes(s.values, BitsOf(k))
    ensures r.Ok? && r.value.0.YScaled? ==>
      p.acqType != 9 && s.Ints? && r.value.0.values == Volts(s.values, p.yReference, p.yIncrement, p.yOrigin)
    ensures p.acqType == 9 && !StartsWith(channel, "BUS") && !StartsWith(channel, "POD") ==> r == Err(UnboundLocal)
  {
    if p.acqType == 9 then
      if StartsWith(channel, "BUS") then Ok((YRaw(s), ["Time (s)", "BUS Values"]))
      else if StartsWith(channel, "POD") then
        var pod :- PodNumber(channel);
        match s
        case Floats(_) => Err(TypeError)
        case Ints(v) => Ok((YLanes(Lanes(v, BitsOf(k))), LaneLabels(pod, BitsOf(k))))
      else Err(UnboundLocal)
    else
      var header := [UnitHeader(p.xUnits), UnitHeader(p.yUnits)];
      match s
      case Floats(_) => Ok((YRaw(s), header))
      case Ints(v) => Ok((YScaled(Volts(v, p.yReference, p.yIncrement, p.yOrigin)), header))
  }

  /** What the modern decoder makes of the block once the preamble is parsed and the window chosen. */
  function DecodeModern(channel: string, start: int, p: Preamble, meta: seq<Meta>, data: seq<byte>,
                        order: ByteOrder): Result<Trace>
    requires ValidPreamble(p)
  {
    var k :- FormatKind(p.format);
    var s :- Unpack(data, k, order);
    var n := Count(s);
    var yh :- ModernY(channel, p, k, s);
    Ok(Trace(TimeAxis(n, p.xReference, start, p.xIncrement, p.xOrigin), yh.0, yh.1,
             meta + [Meta("Waveform bytes downloaded", Text(IntToString(|data|))),
                     Meta("Number of data values", Text(IntToString(n)))]))
  }

  /**
   * A decoded modern trace has one time per element of the block, spaced from
   * the window's start, and the metadata gains the byte and value counts.
   */
  lemma DecodeModernShape(channel: string, start: int, p: Preamble, meta: seq<Meta>, data: seq<byte>,
                          order: ByteOrder)
    requires ValidPreamble(p) && DecodeModern(channel, start, p, meta, data, order).Ok?
    ensures var r := DecodeModern(channel, start, p, meta, data, order).value;
      FormatKind(p.format).Ok? && |r.x| == |data| / Width(FormatKind(p.format).value)
      && r.x == TimeAxis(|r.x|, p.xReference, start, p.xIncrement, p.xOrigin)
      && r.meta == meta + [Meta("Waveform bytes downloaded", Text(IntToString(|data|))),
                           Meta("Number of data values", Text(IntToString(|r.x|)))]
  {
  }

  /** A WORD analog trace of values written in the host order decodes back to their voltages. */
  lemma WordTraceRoundTrip(channel: string, start: int, p: Preamble, meta: seq<Meta>, values: seq<int>,
                           order: ByteOrder)
    requires ValidPreamble(p) && p.format == 2 && p.acqType != 9
    requires forall i :: 0 <= i < |values| ==> InSignedRange(values[i], 2)
    ensures var r := DecodeModern(channel, start, p, meta, EncodeInts(values, 2, order), order);
      r.Ok? && r.value.y == YScaled(Volts(values, p.yReference, p.yIncrement, p.yOrigin))
      && |r.value.x| == |values|
  {
    UnpackEncodeInts(values, 2, order);
  }

  // ---------------------------------------------------------------- legacy decoder

  datatype LegacyPreamble = LegacyPreamble(
    format: int, acqType: int, points: int, average: int,
    xIncrement: real, xOrigin: real, xReference: int,
    yIncrement: real, yOrigin: real, yReference: int)

  /**
   * The ten numbers of the legacy WAVeform:PREamble?, the integer ones truncated;
   * the format and acquire type must be in the legacy tables. The metadata shows
   * the points mode and the points count read before the preamble.
   */
  function ParseLegacyPreamble(nums: seq<real>, source: string, view: string, pointsMode: string,
                               available: int): (r: Result<(LegacyPreamble, seq<Meta>)>)
    ensures |nums| != 10 ==> r == Err(ValueError)
    ensures r.Ok? <==> |nums| == 10 && Trunc(nums[0]) in LegacyForms && Trunc(nums[1]) in LegacyAcqTypes
    ensures r.Ok? ==> (r.value.0.format == Trunc(nums[0]) && r.value.0.xIncrement == nums[4]
                       && r.value.0.xReference == Trunc(nums[6]) && r.value.0.yReference == Trunc(nums[9]))
    ensures r.Ok? ==> |r.value.1| == 14
  {
    if |nums| != 10 then Err(ValueError)
    else
      var p := LegacyPreamble(Trunc(nums[0]), Trunc(nums[1]), Trunc(nums[2]), Trunc(nums[3]),
                              nums[4], nums[5], Trunc(nums[6]), nums[7], nums[8], Trunc(nums[9]));
      if p.format !in LegacyForms || p.acqType !in LegacyAcqTypes then Err(KeyError)
      else
        Ok((p, [
          Meta("Waveform source", Text(source)), Meta("Waveform view", Text(view)),
          Meta("Waveform format", Text(LegacyForms[p.format])),
          Meta("Acquire type", Text(LegacyAcqTypes[p.acqType])),
          Meta("Waveform points mode", Text(pointsMode)),
          Meta("Waveform points available", Text(IntToString(available))),
          Meta("Waveform points desired", Text(IntToString(p.points))),
          Meta("Waveform average count", Text(IntToString(p.average))),
          Meta("Waveform X increment", Number(p.xIncrement)), Meta("Waveform X origin", Number(p.xOrigin)),
          Meta("Waveform X reference", Text(IntToString(p.xReference))),
          Meta("Waveform Y increment", Number(p.yIncrement)), Meta("Waveform Y origin", Number(p.yOrigin)),
          Meta("Waveform Y reference", Text(IntToString(p.yReference)))]))
  }

  /** Unsigned bytes: every element is 0..255. */
  function ByteValues(data: seq<byte>): (v: seq<int>)
    ensures |v| == |data| && forall i :: 0 <= i < |v| ==> 0 <= v[i] < 256 && v[i] == data[i]
  {
    seq(|data|, i requires 0 <= i < |data| => data[i] as int)
  }

  /** The lane count of a legacy pod: 16 when the format code says WORD, else 8. */
  function LegacyLaneCount(format: int): nat {
    if format == 1 then 16 else 8
  }

  /** The legacy y data: bus values raw, pods split into lanes, everything else in volts. */
  function LegacyY(channel: string, p: LegacyPreamble, values: seq<int>): (r: Result<(YData, seq<string>)>)
    ensures StartsWith(channel, "BUS") ==> r == Ok((YRaw(Ints(values)), ["Time (s)", "BUS Values"]))
    ensures !StartsWith(channel, "BUS") && !StartsWith(channel, "POD") ==>
      r == Ok((YScaled(Volts(values, p.yReference, p.yIncrement, p.yOrigin)), ["Time (s)", "Voltage (V)"]))
    ensures r.Ok? && r.value.0.YLanes? ==> r.value.0.lanes == Lanes(values, LegacyLaneCount(p.format))
  {
    if StartsWith(channel, "BUS") then Ok((YRaw(Ints(values)), ["Time (s)", "BUS Values"]))
    else if StartsWith(channel, "POD") then
      var bits := LegacyLaneCount(p.format);
      var pod :- LastDigit(channel);
      Ok((YLanes(Lanes(values, bits)), LaneLabels(pod, bits)))
    else Ok((YScaled(Volts(values, p.yReference, p.yIncrement, p.yOrigin)), ["Time (s)", "Voltage (V)"]))
  }

  /** The legacy PODALL source fails: its last character is not a digit. */
  lemma LegacyPodAllFails(p: LegacyPreamble, values: seq<int>)
    ensures LegacyY("PODALL", p, values) == Err(ValueError)
  {
    assert !StartsWith("PODALL", "BUS") by { assert "PODALL"[..3][0] == 'P'; }
    assert StartsWith("PODALL", "POD");
    assert !IsDigit("PODALL"[5]);
  }

  /** The legacy time axis starts at sample 0: x[i] = (i - x reference) * x increment + x origin. */
  function DecodeLegacy(channel: string, p: LegacyPreamble, meta: seq<Meta>, data: seq<byte>): Result<Trace> {
    var values := ByteValues(data);
    var yh :- LegacyY(channel, p, values);
    Ok(Trace(TimeAxis(|data|, p.xReference, 0, p.xIncrement, p.xOrigin), yh.0, yh.1,
             meta + [Meta("Waveform bytes downloaded", Text(IntToString(|data|))),
                     Meta("Number of data values", Text(IntToString(|data|)))]))
  }

  /**
   * The legacy decoder fails only for a pod source whose name does not end in a
   * digit; otherwise its times start at sample 0 and the metadata gains the counts.
   */
  lemma DecodeLegacyShape(channel: string, p: LegacyPreamble, meta: seq<Meta>, data: seq<byte>)
    ensures var r := DecodeLegacy(channel, p, meta, data);
      (r.Err? <==> StartsWith(channel, "POD") && !StartsWith(channel, "BUS") && !IsDigit(channel[|channel| - 1]))
      && (r.Ok? ==> r.value.x == TimeAxis(|data|, p.xReference, 0, p.xIncrement, p.xOrigin)
                    && r.value.meta == meta + [Meta("Waveform bytes downloaded", Text(IntToString(|data|))),
                                               Meta("Number of data values", Text(IntToString(|data|)))])
  {
  }

  /** A 16-lane legacy pod carries the byte in lanes 0..7 and only zeros above. */
  lemma LegacyWordPodHighLanes(channel: string, p: LegacyPreamble, meta: seq<Meta>, data: seq<byte>, ch: nat)
    requires p.format == 1 && 8 <= ch < 16
    requires DecodeLegacy(channel, p, meta, data).Ok? && DecodeLegacy(channel, p, meta, data).value.y.YLanes?
    ensures var lanes := DecodeLegacy(channel, p, meta, data).value.y.lanes;
      |lanes| == 16 && forall i :: 0 <= i < |data| ==> lanes[ch][i] == 0
  {
    HighLanesOfBytesZero(ByteValues(data), ch);
  }
}
