/**
 * Dialect-dependent command strings of the Keysight driver: measurement write
 * and query forms, the statistics switch, the screen-capture parameters,
 * blanking, autoscale, annotation bookmarks and the measurement-unit table.
 */
module Commands {
  import opened Results
  import opened Text
  import opened Scpi

  // ---------------------------------------------------------------- measurements

  /** The command and the query form of a measurement, with its parameters when there are any. */
  datatype MeasureForms = MeasureForms(write: string, query: string)

  function MeasureCommands(mode: string, para: string): (f: MeasureForms)
    ensures StartsWith(f.write, "MEASure:" + mode) && StartsWith(f.query, "MEASure:" + mode + "?")
    ensures para == [] ==> f == MeasureForms("MEASure:" + mode, "MEASure:" + mode + "?")
    ensures para != [] ==> EndsWith(f.write, " " + para) && EndsWith(f.query, "? " + para)
  {
    if para != [] then MeasureForms("MEASure:" + mode + " " + para, "MEASure:" + mode + "? " + para)
    else MeasureForms("MEASure:" + mode, "MEASure:" + mode + "?")
  }

  /** The query form is the command form with '?' after the measurement name, parameters unchanged. */
  lemma QueryIsCommandWithMark(mode: string, para: string)
    ensures var f := MeasureCommands(mode, para);
      var stem := "MEASure:" + mode;
      StartsWith(f.write, stem) && f.query == stem + "?" + f.write[|stem|..]
      && (para == [] <==> f.write == stem)
      && (para != [] ==> f.write == stem + " " + para)
  {
    var f := MeasureCommands(mode, para);
    var stem := "MEASure:" + mode;
    assert f.write[..|stem|] == stem;
    if para != [] {
      assert f.write[|stem|..] == " " + para;
      assert |f.write| > |stem|;
    } else {
      assert f.write[|stem|..] == [];
    }
  }

  /** Switching the statistics display on: the modern and the legacy form. */
  function StatisticsOnCommand(modern: bool): (cmd: string)
    ensures StartsWith(cmd, "MEASure:STATistics") && EndsWith(cmd, " ON")
    ensures modern <==> cmd == "MEASure:STATistics ON"
  {
    if modern then "MEASure:STATistics ON" else "MEASure:STATistics:DISPlay ON"
  }

  /**
   * Whether _measure re-sends MEASure:SOURce, as written: the channel number read
   * back from the instrument is compared with the channel string, and a number
   * never equals a string, so every call switches (unless reading the number fails).
   */
  function SourceSwitchAsWritten(reply: string, channel: string): (r: Result<bool>)
    ensures r.Err? <==> ChanNumber(reply).Err?
    ensures r.Ok? ==> r.value
  {
    var _ :- ChanNumber(reply);
    Ok(true)
  }

  /** Whether the source must be switched: the reply names a channel other than the requested one. */
  function SourceSwitch(reply: string, channel: string): (r: Result<bool>)
    ensures r.Err? <==> ChanNumber(reply).Err?
    ensures r.Ok? ==> (r.value <==> ParseInt(channel) != Some(ChanNumber(reply).value))
  {
    var n :- ChanNumber(reply);
    Ok(ParseInt(channel) != Some(n))
  }

  /** The source reply CHAN1 with requested channel "1": the code switches although nothing changes. */
  lemma SourceSwitchDiscrepancy()
    ensures SourceSwitchAsWritten("CHAN1", "1") == Ok(true)
    ensures SourceSwitch("CHAN1", "1") == Ok(false)
  {
    assert "CHAN1"[..4] == "CHAN";
    assert ChanNumber("CHAN1") == Ok(1);
    IntToStringParses(1);
    assert IntToString(1) == "1";
  }

  /** The corrected test keeps the source exactly when the reply already names the requested analog channel. */
  lemma SourceSwitchExactly(d: nat, k: nat, trailing: string)
    requires d < 10
    ensures SourceSwitch(ChannelStr(IntChannel(d)).s + trailing, NatToString(k)) == Ok(d != k)
  {
    ChanNumberRoundTrip(d, trailing);
    IntToStringParses(k);
  }

  // ---------------------------------------------------------------- screen capture, blanking

  /** The writes sent before DISPlay:DATA? and the query's parameters. */
  datatype Hardcopy = Hardcopy(before: seq<string>, query: string)

  function HardcopyCommands(modern: bool): (h: Hardcopy)
    ensures StartsWith(h.query, "DISPlay:DATA? PNG,")
    ensures modern <==> h.before == []
  {
    if modern then Hardcopy([], "DISPlay:DATA? PNG,SCReen,ON,NORMal")
    else Hardcopy(["HARDcopy:INKSaver OFF"], "DISPlay:DATA? PNG,COLor")
  }

  /** Blanking every channel: legacy firmware takes no parameter. */
  function BlankCommand(modern: bool): (cmd: string)
    ensures StartsWith(cmd, "BLANk") && (modern <==> cmd != "BLANk")
  {
    if modern then "BLANk ALL" else "BLANk"
  }

  // ---------------------------------------------------------------- autoscale

  /** The valid members of the requested list, in order, each once per request. */
  function ValidViews(requested: seq<Channel>, valid: seq<string>): (v: seq<string>)
    ensures forall i :: 0 <= i < |v| ==> v[i] in valid
    ensures |v| <= |requested|
  {
    if requested == [] then []
    else
      var rest := ValidViews(requested[1..], valid);
      if requested[0].StrChannel? && requested[0].s in valid then [requested[0].s] + rest else rest
  }

  /** The channels autoscale is asked for: a single value is a list of one. */
  function RequestedChannels(c: Channel): seq<Channel> {
    match c
    case ListChannel(items) => seq(|items|, i requires 0 <= i < |items| => StrChannel(items[i]))
    case _ => [c]
  }

  /**
   * setupAutoscale: for a given channel, blank everything and VIEW each requested
   * channel that is valid (invalid ones are skipped), then AUToscale. MXR first
   * asks for separate grids.
   */
  function AutoscaleCommands(mxr: bool, modern: bool, channel: Channel, valid: seq<string>): (cmds: seq<string>)
    ensures |cmds| >= 1 && cmds[|cmds| - 1] == "AUToscale"
    ensures mxr <==> cmds[0] == "AUToscale:PLACement SEParate"
  {
    var placement := if mxr then ["AUToscale:PLACement SEParate"] else [];
    var views := if channel.NoChannel? then []
                 else [BlankCommand(modern)] + Views(ValidViews(RequestedChannels(channel), valid));
    placement + views + ["AUToscale"]
  }

  function Views(chans: seq<string>): (cmds: seq<string>)
    ensures |cmds| == |chans|
    ensures forall i :: 0 <= i < |chans| ==> cmds[i] == "VIEW " + chans[i]
  {
    seq(|chans|, i requires 0 <= i < |chans| => "VIEW " + chans[i])
  }

  /** A requested string channel is viewed exactly when it is valid. */
  lemma {:induction false} ValidViewsExactly(requested: seq<Channel>, valid: seq<string>, s: string)
    ensures s in ValidViews(requested, valid) <==> StrChannel(s) in requested && s in valid
  {
    if requested != [] {
      ValidViewsExactly(requested[1..], valid, s);
      assert requested == [requested[0]] + requested[1..];
    }
  }

  /** Nothing is blanked or viewed when no channel is given; otherwise blanking comes first. */
  lemma AutoscaleShape(mxr: bool, modern: bool, channel: Channel, valid: seq<string>)
    ensures var cmds := AutoscaleCommands(mxr, modern, channel, valid);
      var k := if mxr then 1 else 0;
      (channel.NoChannel? ==> |cmds| == k + 1)
      && (!channel.NoChannel? ==>
            (cmds[k] == BlankCommand(modern)
             && cmds[k + 1..|cmds| - 1] == Views(ValidViews(RequestedChannels(channel), valid))))
  {
    var placement := if mxr then ["AUToscale:PLACement SEParate"] else [];
    var views := if channel.NoChannel? then []
                 else [BlankCommand(modern)] + Views(ValidViews(RequestedChannels(channel), valid));
    var cmds := placement + views + ["AUToscale"];
    assert AutoscaleCommands(mxr, modern, channel, valid) == cmds;
    assert |placement| == if mxr then 1 else 0;
    if !channel.NoChannel? {
      assert cmds[|placement|..|cmds| - 1] == views;
    }
  }

  /** An integer channel is never in a list of strings, so it is skipped. */
  lemma IntChannelNeverViewed(n: int, valid: seq<string>)
    ensures ValidViews(RequestedChannels(IntChannel(n)), valid) == []
  {
  }

  // ---------------------------------------------------------------- annotation

  /** Legacy annotation colour names and the modern bookmark colours they stand for. */
  const ColorNames: map<string, string> :=
    map["ch1" := "CHAN1", "ch2" := "CHAN2", "ch3" := "CHAN3", "ch4" := "CHAN4",
        "ch5" := "CHAN5", "ch6" := "CHAN6", "ch7" := "CHAN7", "ch8" := "CHAN8",
        "dig" := "DCH", "math" := "FUNC1", "ref" := "WMEM", "marker" := "MARK",
        "white" := "FUNC14", "red" := "FUNC12"]

  /** Each channel colour chN translates to the channel's own name CHANN. */
  lemma ChannelColorTranslates(d: nat)
    requires 1 <= d <= 8
    ensures "ch" + NatToString(d) in ColorNames
    ensures ColorNames["ch" + NatToString(d)] == "CHAN" + NatToString(d)
  {
    assert NatToString(d) == [DigitChar(d)];
    if d == 1 { assert "ch" + NatToString(d) == "ch1"; }
    else if d == 2 { assert "ch" + NatToString(d) == "ch2"; }
    else if d == 3 { assert "ch" + NatToString(d) == "ch3"; }
    else if d == 4 { assert "ch" + NatToString(d) == "ch4"; }
    else if d == 5 { assert "ch" + NatToString(d) == "ch5"; }
    else if d == 6 { assert "ch" + NatToString(d) == "ch6"; }
    else if d == 7 { assert "ch" + NatToString(d) == "ch7"; }
    else { assert "ch" + NatToString(d) == "ch8"; }
  }

  /** The command header of the bookmark that stands in for the annotation on modern firmware. */
  const Bookmark1 := "DISPlay:BOOKmark1:"

  /** The commands annotateColor sends, the colour it leaves saved, and how it ends. */
  datatype Plan = Plan(cmds: seq<string>, color: string, outcome: Result<()>)

  /**
   * annotateColor: modern firmware saves a given colour, positions bookmark 1 and
   * sets it with the saved text and the translated saved colour (an untranslatable
   * colour fails the lookup after the two position writes); legacy firmware sends
   * a given colour as it is and ignores a missing one.
   */
  function AnnotateColorPlan(modern: bool, text: string, color: Option<string>, saved: string): (p: Plan)
    ensures modern ==> p.color == (if color.Some? then color.value else saved)
    ensures modern ==> |p.cmds| >= 2 && p.cmds[..2] == [Bookmark1 + "XPOSition 0.015", Bookmark1 + "YPOSition 0.06"]
    ensures modern ==> (p.outcome.Ok? <==> p.color in ColorNames)
    ensures p.outcome.Err? ==> p.outcome.error == KeyError && |p.cmds| == 2
    ensures !modern ==> p.color == saved && p.outcome.Ok? && (|p.cmds| == 1 <==> color.Some?)
  {
    if modern then
      var c := if color.Some? then color.value else saved;
      var position := [Bookmark1 + "XPOSition 0.015", Bookmark1 + "YPOSition 0.06"];
      if c in ColorNames then
        Plan(position + [Bookmark1 + ("SET NONE,\"" + text + "\"," + ColorNames[c] + ",\"" + text + "\"")], c, Ok(()))
      else Plan(position, c, Err(KeyError))
    else if color.Some? then Plan(["DISPlay:ANN:COLor " + color.value], saved, Ok(()))
    else Plan([], saved, Ok(()))
  }

  /** The legacy annotation commands annotate sends after the colour. */
  function LegacyAnnotation(text: string, background: string): seq<string> {
    ["DISPlay:ANN:BACKground " + background, "DISPlay:ANN:TEXT \"" + text + "\"", "DISPlay:ANN ON"]
  }

  /**
   * annotate: the colour step of annotateColor, then on legacy firmware the
   * background, the quoted text and the switch; modern firmware has already
   * shown the bookmark in the colour step.
   */
  function AnnotateCommands(modern: bool, text: string, color: Option<string>, background: string, saved: string): (p: Plan)
    ensures modern ==> p == AnnotateColorPlan(modern, text, color, saved)
    ensures !modern ==> p.outcome.Ok? && p.color == saved
    ensures !modern ==> (|p.cmds| == (if color.Some? then 4 else 3)
      && p.cmds[|p.cmds| - 3] == "DISPlay:ANN:BACKground " + background
      && p.cmds[|p.cmds| - 2] == "DISPlay:ANN:TEXT \"" + text + "\""
      && p.cmds[|p.cmds| - 1] == "DISPlay:ANN ON")
    ensures !modern && color.Some? ==> p.cmds[0] == "DISPlay:ANN:COLor " + color.value
  {
    var p := AnnotateColorPlan(modern, text, color, saved);
    if modern then p else Plan(p.cmds + LegacyAnnotation(text, background), p.color, p.outcome)
  }

  /** Turning the annotation off. */
  function AnnotateOffCommand(modern: bool): (cmd: string)
    ensures modern <==> StartsWith(cmd, Bookmark1)
  {
    if modern then Bookmark1 + "DELete" else "DISPlay:ANN OFF"
  }

  /**
   * annotateOff undoes what annotate shows: on modern firmware every command
   * annotate sends addresses bookmark 1, which the off command deletes; on
   * legacy firmware annotate ends by switching the annotation on, and the off
   * command switches it off.
   */
  lemma AnnotateOffUndoes(modern: bool, text: string, color: Option<string>, background: string, saved: string)
    ensures var p := AnnotateCommands(modern, text, color, background, saved);
      modern ==> forall i :: 0 <= i < |p.cmds| ==> StartsWith(p.cmds[i], Bookmark1)
    ensures var p := AnnotateCommands(modern, text, color, background, saved);
      !modern ==> p.cmds[|p.cmds| - 1] == "DISPlay:ANN ON" && AnnotateOffCommand(modern) == "DISPlay:ANN OFF"
  {
    if modern {
      ModernAnnotationIsBookmark(text, color, saved);
    }
  }

  /** Every command of the modern annotation addresses bookmark 1. */
  lemma ModernAnnotationIsBookmark(text: string, color: Option<string>, saved: string)
    ensures var p := AnnotateColorPlan(true, text, color, saved);
      forall i :: 0 <= i < |p.cmds| ==> StartsWith(p.cmds[i], Bookmark1)
  {
    var p := AnnotateColorPlan(true, text, color, saved);
    var c := if color.Some? then color.value else saved;
    var position := [Bookmark1 + "XPOSition 0.015", Bookmark1 + "YPOSition 0.06"];
    PrefixStarts(Bookmark1, "XPOSition 0.015");
    PrefixStarts(Bookmark1, "YPOSition 0.06");
    if c in ColorNames {
      var bookmark := "SET NONE,\"" + text + "\"," + ColorNames[c] + ",\"" + text + "\"";
      PrefixStarts(Bookmark1, bookmark);
      assert p == Plan(position + [Bookmark1 + bookmark], c, Ok(()));
    } else {
      assert p == Plan(position, c, Err(KeyError));
    }
  }

  lemma PrefixStarts(head: string, rest: string)
    ensures StartsWith(head + rest, head)
  {
    assert (head + rest)[..|head|] == head;
  }

  // ---------------------------------------------------------------- measurement table

  /** The units of the named measurements of the statistics table. */
  const MeasureUnits: map<string, string> :=
    map["Bit Rate" := "Hz", "Burst Width" := "s", "Counter Freq" := "Hz", "Frequency" := "Hz",
        "Period" := "s", "Duty" := "%", "Neg Duty" := "%", "Fall Time" := "s", "Rise Time" := "s",
        "Num Falling" := "", "Num Neg Pulses" := "", "Num Rising" := "", "Num Pos Pulses" := "",
        "- Width" := "s", "+ Width" := "s", "Overshoot" := "%", "Preshoot" := "%",
        "Amplitude" := "V", "Top" := "V", "Base" := "V", "Maximum" := "V", "Minimum" := "V",
        "Pk-Pk" := "V", "V p-p" := "V", "Average - Full Screen" := "V", "RMS - Full Screen" := "V"]

  /** measureTblUnits: the table's unit, or the empty string for a name it does not know. */
  function MeasureTblUnits(meas: string): (u: string)
    ensures meas !in MeasureUnits ==> u == ""
    ensures meas in MeasureUnits ==> u == MeasureUnits[meas]
    ensures u in {"Hz", "s", "%", "", "V"}
  {
    if meas in MeasureUnits then MeasureUnits[meas] else ""
  }

  /** Every unit in the table is one of five, and both names of the peak-to-peak voltage agree. */
  lemma MeasureUnitsClosed()
    ensures forall m :: m in MeasureUnits ==> MeasureUnits[m] in {"Hz", "s", "%", "", "V"}
    ensures MeasureTblUnits("Pk-Pk") == MeasureTblUnits("V p-p") == "V"
  {
  }
}
