/**
 * The older stand-alone MSO-X/DSO-X 3000A driver: its class-level channel
 * lists, the checks of its original autoscale command, and the CSV rows its
 * waveform download writes, one per sample.
 */
module Msox3000 {
  import opened Results
  import opened Text
  import opened Scpi
  import opened Waveform

  const MaxChannel: nat := 4

  /** "1".."4". */
  function AnalogList(): (l: seq<string>)
    ensures |l| == MaxChannel && forall i :: 0 <= i < MaxChannel ==> l[i] == NatToString(i + 1)
  {
    seq(MaxChannel, i requires 0 <= i < MaxChannel => NatToString(i + 1))
  }

  /** "1".."4" followed by the two pods. */
  function AllList(): (l: seq<string>)
    ensures l == AnalogList() + ["POD1", "POD2"]
  {
    AnalogList() + ["POD1", "POD2"]
  }

  /** The full list is exactly the four channel numbers and the two pod names. */
  lemma AllListMembers(s: string)
    ensures s in AllList() <==> s in {"1", "2", "3", "4", "POD1", "POD2"}
  {
    var a := AnalogList();
    assert a[0] == "1" && a[1] == "2" && a[2] == "3" && a[3] == "4" by {
      NatToStringDigit(1); NatToStringDigit(2); NatToStringDigit(3); NatToStringDigit(4);
    }
    assert AllList() == ["1", "2", "3", "4", "POD1", "POD2"];
  }

  lemma NatToStringDigit(n: nat)
    requires n < 10
    ensures NatToString(n) == [DigitChar(n)]
  {
  }

  /** A channel the old driver accepts: a string in its full list. */
  predicate Valid(c: Channel) {
    c.StrChannel? && c.s in AllList()
  }

  /** A given channel (not None) replaces the current one. */
  function Current(current: Channel, given: Channel): (c: Channel)
    ensures given.NoChannel? ==> c == current
    ensures !given.NoChannel? ==> c == given
  {
    if given.NoChannel? then current else given
  }

  /** A list channel as its items, any other value as a one-element list. */
  function ChanList(c: Channel): (l: seq<Channel>)
    ensures c.ListChannel? ==> |l| == |c.items| && forall i :: 0 <= i < |l| ==> l[i] == StrChannel(c.items[i])
    ensures !c.ListChannel? ==> l == [c]
  {
    if c.ListChannel? then seq(|c.items|, i requires 0 <= i < |c.items| => StrChannel(c.items[i])) else [c]
  }

  /** ',' + each rendered channel, concatenated. */
  function CommaList(chans: seq<Channel>, render: Channel -> string): (s: string)
    ensures chans == [] <==> s == []
    ensures chans != [] ==> s[0] == ','
  {
    if chans == [] then [] else CommaList(chans[..|chans| - 1], render) + "," + render(chans[|chans| - 1])
  }

  /**
   * setupAutoscaleOLD: at most five channels, each in the full list, otherwise
   * ValueError before anything is sent; then one AUToscale command naming them
   * all, comma-separated. The channel renderer is a parameter: the helper the
   * driver calls for it is not part of this model.
   */
  function AutoscaleOld(current: Channel, given: Channel, render: Channel -> string): (r: Result<string>)
  {
    var chans := ChanList(Current(current, given));
    if |chans| > 5 then Err(ValueError)
    else if exists i :: 0 <= i < |chans| && !Valid(chans[i]) then Err(ValueError)
    else
      var s := CommaList(chans, render);
      Ok("AUToscale " + (if s == [] then [] else s[1..]))
  }

  /** The command is sent exactly when there are at most five channels and all are valid. */
  lemma AutoscaleOldChecks(current: Channel, given: Channel, render: Channel -> string)
    ensures var chans := ChanList(Current(current, given));
      AutoscaleOld(current, given, render).Ok? <==> |chans| <= 5 && forall i :: 0 <= i < |chans| ==> Valid(chans[i])
    ensures AutoscaleOld(current, given, render).Err? ==> AutoscaleOld(current, given, render).error == ValueError
  {
  }

  /** The command's argument is the rendered channels joined with ','. */
  lemma CommaListJoins(chans: seq<Channel>, render: Channel -> string)
    requires chans != []
    ensures CommaList(chans, render)[1..] == Join(seq(|chans|, i requires 0 <= i < |chans| => render(chans[i])), ',')
  {
    CommaListJoinsParts(chans, render, seq(|chans|, i requires 0 <= i < |chans| => render(chans[i])));
  }

  lemma {:induction false} CommaListJoinsParts(chans: seq<Channel>, render: Channel -> string, parts: seq<string>)
    requires chans != [] && |parts| == |chans|
    requires forall i :: 0 <= i < |chans| ==> parts[i] == render(chans[i])
    ensures CommaList(chans, render)[1..] == Join(parts, ',')
  {
    if |chans| == 1 {
      assert CommaList(chans, render) == "," + render(chans[0]);
    } else {
      var init := chans[..|chans| - 1];
      var last := render(chans[|chans| - 1]);
      CommaListJoinsParts(init, render, parts[..|parts| - 1]);
      JoinSnoc(parts, ',');
      assert CommaList(chans, render) == CommaList(init, render) + ("," + last);
      DropFirstOfAppend(CommaList(init, render), "," + last);
    }
  }

  lemma DropFirstOfAppend(a: string, b: string)
    requires a != []
    ensures (a + b)[1..] == a[1..] + b
  {
  }

  lemma {:induction false} JoinSnoc(parts: seq<string>, sep: char)
    requires |parts| >= 2
    ensures Join(parts, sep) == Join(parts[..|parts| - 1], sep) + [sep] + parts[|parts| - 1]
  {
    if |parts| > 2 {
      JoinSnoc(parts[1..], sep);
      assert parts[1..][..|parts| - 2] == parts[..|parts| - 1][1..];
    }
  }

  /** A single channel argument renders alone. */
  lemma OneChannelCommand(c: Channel, render: Channel -> string)
    requires Valid(c)
    ensures AutoscaleOld(c, NoChannel, render) == Ok("AUToscale " + render(c))
  {
    var s := CommaList([c], render);
    assert s == "," + render(c);
  }

  /**
   * The waveform download's checks, made before anything is sent: the channel
   * must not be a list and must be in the full list.
   */
  function WaveformChannel(current: Channel, given: Channel): (r: Result<string>)
    ensures r.Ok? <==> !given.ListChannel? && Valid(Current(current, given))
    ensures r.Ok? ==> r.value == Current(current, given).s
    ensures r.Err? ==> r.error == ValueError
  {
    var c := if given.ListChannel? then given else Current(current, given);
    if c.ListChannel? then Err(ValueError)
    else if !Valid(c) then Err(ValueError)
    else Ok(c.s)
  }

  /** The pod number of POD1/POD2, and None for an analog channel. */
  function Pod(channel: string): (pod: Option<int>)
    requires channel in AllList()
    ensures pod.Some? <==> channel in {"POD1", "POD2"}
    ensures channel == "POD1" ==> pod == Some(1)
    ensures channel == "POD2" ==> pod == Some(2)
  {
    AllListMembers(channel);
    if StartsWith(Upper(channel), "POD") then Some(DigitValue(channel[|channel| - 1])) else None
  }

  /** The commands sent before the data is read. */
  function WaveformCommands(points: Option<int>, source: string): (cmds: seq<string>)
    ensures |cmds| == (if points.Some? then 9 else 8)
    ensures cmds[0] == "WAVeform:POINts:MODE MAX"
    ensures cmds[|cmds| - 6..] == ["WAVeform:FORMat BYTE", "WAVeform:XINCrement?", "WAVeform:XORigin?",
                                   "WAVeform:YINCrement?", "WAVeform:YORigin?", "WAVeform:YREFerence?"]
  {
    ["WAVeform:POINts:MODE MAX"]
    + (if points.Some? then ["WAVeform:POINts " + IntToString(points.value)] else [])
    + ["WAVeform:SOURce " + source, "WAVeform:FORMat BYTE", "WAVeform:XINCrement?", "WAVeform:XORigin?",
       "WAVeform:YINCrement?", "WAVeform:YORigin?", "WAVeform:YREFerence?"]
  }

  /** The CSV header: the pod's eight lane names, or time and voltage. */
  function Header(pod: Option<int>): (h: seq<string>)
    ensures |h| >= 2 && h[0] == "Time (s)"
    ensures pod.None? ==> h == ["Time (s)", "Voltage (V)"]
    ensures pod.Some? ==> h == LaneLabels(pod.value, 8)
  {
    if pod.Some? then LaneLabels(pod.value, 8) else ["Time (s)", "Voltage (V)"]
  }

  /** The numbers read back for the row formula. */
  datatype Scale = Scale(xIncrement: real, xOrigin: real, yIncrement: real, yOrigin: real, yReference: real)

  /** Row i for sample b: its time, then the pod's eight bits or the voltage. */
  function Row(b: byte, i: nat, pod: Option<int>, k: Scale): (row: seq<real>)
    ensures |row| >= 2 && row[0] == k.xOrigin + i as real * k.xIncrement
    ensures pod.Some? ==> |row| == 9 && forall ch :: 0 <= ch < 8 ==> row[1 + ch] == Bit(b, ch) as real
    ensures pod.None? ==> row == [row[0], (b as real - k.yReference) * k.yIncrement + k.yOrigin]
  {
    var time := k.xOrigin + i as real * k.xIncrement;
    if pod.Some? then [time] + seq(8, ch requires 0 <= ch < 8 => Bit(b, ch) as real)
    else [time, (b as real - k.yReference) * k.yIncrement + k.yOrigin]
  }

  /** The first n rows. */
  function Rows(data: seq<byte>, n: nat, pod: Option<int>, k: Scale): (rows: seq<seq<real>>)
    requires n <= |data|
    ensures |rows| == n
  {
    seq(n, i requires 0 <= i < n => Row(data[i], i, pod, k))
  }

  /** The rows as the driver writes them: for i in range(0, nLength - 1). */
  function RowsAsWritten(data: seq<byte>, pod: Option<int>, k: Scale): (rows: seq<seq<real>>)
    ensures |rows| == if data == [] then 0 else |data| - 1
  {
    Rows(data, if data == [] then 0 else |data| - 1, pod, k)
  }

  /**
   * As written, a non-empty download writes rows for every sample but the last,
   * while the count it returns is the number of samples.
   */
  lemma LastSampleDropped(data: seq<byte>, pod: Option<int>, k: Scale)
    requires data != []
    ensures |RowsAsWritten(data, pod, k)| == |data| - 1 < |data|
    ensures RowsAsWritten(data, pod, k) == Rows(data, |data|, pod, k)[..|data| - 1]
  {
  }

  /**
   * The row loop as evidently intended: one row per sample, the returned count
   * equal to the number of rows written.
   */
  method WriteRows(data: seq<byte>, pod: Option<int>, k: Scale) returns (rows: seq<seq<real>>, count: nat)
    ensures rows == Rows(data, |data|, pod, k)
    ensures count == |rows| == |data|
  {
    rows := [];
    var i := 0;
    while i < |data|
      invariant 0 <= i <= |data|
      invariant rows == Rows(data, i, pod, k)
    {
      rows := rows + [Row(data[i], i, pod, k)];
      i := i + 1;
    }
    count := |data|;
  }

  /** Every sample has its row, at a time one x-increment after the previous one. */
  lemma RowsCoverSamples(data: seq<byte>, pod: Option<int>, k: Scale, i: nat)
    requires 0 < i < |data|
    ensures Rows(data, |data|, pod, k)[i][0] == Rows(data, |data|, pod, k)[i - 1][0] + k.xIncrement
    ensures pod.Some? ==> Rows(data, |data|, pod, k)[i][1..] == seq(8, ch requires 0 <= ch < 8 => Bit(data[i], ch) as real)
  {
    RowAt(data, |data|, pod, k, i);
    RowAt(data, |data|, pod, k, i - 1);
    TimeStep(i, k);
  }

  lemma RowAt(data: seq<byte>, n: nat, pod: Option<int>, k: Scale, i: nat)
    requires i < n <= |data|
    ensures Rows(data, n, pod, k)[i] == Row(data[i], i, pod, k)
  {
  }

  /** Sample i is one x-increment after sample i - 1. */
  lemma TimeStep(i: nat, k: Scale)
    requires i >= 1
    ensures k.xOrigin + i as real * k.xIncrement == (k.xOrigin + (i - 1) as real * k.xIncrement) + k.xIncrement
  {
    var a: real := (i - 1) as real;
    assert i as real == a + 1.0;
    assert (a + 1.0) * k.xIncrement == a * k.xIncrement + k.xIncrement;
  }

  /** A pod row holds the byte's eight lanes, and those bits spell the byte. */
  lemma PodRowSpellsByte(b: byte, i: nat, pod: int, k: Scale)
    ensures forall ch :: 0 <= ch < 8 ==> Row(b, i, Some(pod), k)[1 + ch] == Lanes([b], 8)[ch][0] as real
    ensures Weigh(Lanes([b], 8), 0, 8) == b
  {
    assert Pow2(8) == 256 by {
      assert Pow2(4) == 16;
    }
    LanesSpellSample([b], 8, 0);
  }
}
