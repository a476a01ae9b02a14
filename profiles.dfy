/**
 * Model and capability resolution: which driver class an identity selects, and
 * the channel lists, series name, channel count and legacy-version threshold each
 * driver class's constructor chain leaves behind.
 */
module Profiles {
  import opened Results
  import opened Text
  import opened Scpi

  /** The driver classes getBestClass can build. */
  datatype ClassTag =
    | Keysight
    | DSOX | DSOX3xx2A | DSOX3xx4A | DSOX3xx2T | DSOX3xx4T
    | MSOX | MSOX3xx2A | MSOX3xx4A | MSOX3xx2T | MSOX3xx4T
    | MXR | MXRxx8A | MXRxx4A
    | EXR | EXRxx8A | EXRxx4A
    | UXR | UXRxxx4A | UXRxxx2A

  /** The outcome of getBestClass: the receiver itself, or a new object of a class. */
  datatype Choice = KeepReceiver | Build(tag: ClassTag)

  predicate IsKeysightMaker(manufacturer: string) {
    StartsWith(Upper(manufacturer), "KEYSIGHT") || StartsWith(Upper(manufacturer), "AGILENT")
  }

  /** The class for an upper-cased Keysight/Agilent model string. */
  function ModelClass(m: string): ClassTag {
    if StartsWith(m, "MXR") then
      (if EndsWith(m, "8A") then MXRxx8A else if EndsWith(m, "4A") then MXRxx4A else MXR)
    else if StartsWith(m, "EXR") then
      (if EndsWith(m, "8A") then EXRxx8A else if EndsWith(m, "4A") then EXRxx4A else EXR)
    else if StartsWith(m, "UXR") then
      (if EndsWith(m, "4A") || EndsWith(m, "4AP") then UXRxxx4A
       else if EndsWith(m, "2A") || EndsWith(m, "2AP") then UXRxxx2A
       else UXR)
    else if StartsWith(m, "DSO-X") then
      (if StartsWith(m, "DSO-X 3") && EndsWith(m, "4A") then DSOX3xx4A
       else if StartsWith(m, "DSO-X 3") && EndsWith(m, "2A") then DSOX3xx2A
       else if StartsWith(m, "DSO-X 3") && EndsWith(m, "4T") then DSOX3xx4T
       else if StartsWith(m, "DSO-X 3") && EndsWith(m, "2T") then DSOX3xx2T
       else DSOX)
    else if StartsWith(m, "MSO-X") then
      (if StartsWith(m, "MSO-X 3") && EndsWith(m, "4A") then MSOX3xx4A
       else if StartsWith(m, "MSO-X 3") && EndsWith(m, "2A") then MSOX3xx2A
       else if StartsWith(m, "MSO-X 3") && EndsWith(m, "4T") then MSOX3xx4T
       else if StartsWith(m, "MSO-X 3") && EndsWith(m, "2T") then MSOX3xx2T
       else MSOX)
    else Keysight
  }

  /** getBestClass on the identity read from the instrument. */
  function BestClass(manufacturer: string, model: string): (c: Choice)
    ensures c == KeepReceiver <==> !IsKeysightMaker(manufacturer)
  {
    if IsKeysightMaker(manufacturer) then Build(ModelClass(Upper(model))) else KeepReceiver
  }

  /** The settings a constructor chain leaves: series, channel count, threshold and channel lists. */
  datatype Profile = Profile(series: string, maxChannel: nat, versionLegacy: real,
                             analog: seq<string>, all: seq<string>)

  /** [stem + str(lo), ..., stem + str(hi)]. */
  function Numbered(stem: string, lo: nat, hi: nat): (r: seq<string>)
    ensures |r| == if lo <= hi then hi - lo + 1 else 0
    decreases hi + 1 - lo
  {
    if lo > hi then [] else [stem + NatToString(lo)] + Numbered(stem, lo + 1, hi)
  }

  /** The i-th name of a numbered group carries the number lo + i. */
  lemma {:induction false} NumberedAt(stem: string, lo: nat, hi: nat, i: nat)
    requires i < |Numbered(stem, lo, hi)|
    ensures Numbered(stem, lo, hi)[i] == stem + NatToString(lo + i)
    decreases hi + 1 - lo
  {
    if i > 0 {
      NumberedAt(stem, lo + 1, hi, i - 1);
    }
  }

  /** The analog channel names "1".."n", the list every constructor starts from. */
  function AnalogNames(n: nat): seq<string> {
    Numbered("", 1, n)
  }

  /** A decimal string names an analog channel exactly when it is in 1..n. */
  lemma AnalogMembership(n: nat, k: nat)
    ensures NatToString(k) in AnalogNames(n) <==> 1 <= k <= n
  {
    var names := AnalogNames(n);
    if NatToString(k) in names {
      var i :| 0 <= i < |names| && names[i] == NatToString(k);
      NumberedAt("", 1, n, i);
      assert "" + NatToString(1 + i) == NatToString(1 + i);
      NatToStringInjective(k, 1 + i);
    }
    if 1 <= k <= n {
      NumberedAt("", 1, n, k - 1);
      assert names[k - 1] == "" + NatToString(k);
      assert "" + NatToString(k) == NatToString(k);
    }
  }

  /** The base oscilloscope: "1".."n" then POD1, POD2; series GENERIC; threshold 0.0. */
  function OscilloscopeProfile(n: nat): Profile {
    Profile("GENERIC", n, 0.0, AnalogNames(n), AnalogNames(n) + ["POD1", "POD2"])
  }

  /** Keysight: the full list is channelStr(1)..channelStr(n); threshold 2.99. */
  function KeysightProfile(n: nat): Profile {
    Profile("KEYSIGHT", n, 2.99, AnalogNames(n), Numbered("CHAN", 1, n))
  }

  function DSOXProfile(n: nat): Profile {
    KeysightProfile(n).(series := "DSOX")
  }

  function MSOXProfile(n: nat): Profile {
    var p := DSOXProfile(n);
    p.(all := p.all + ["POD1", "POD2"], series := "MSOX")
  }

  /** The MXR full list: CHAN, DIFF, COMM, FUNC1..16, HIST, WMEM1..8, BUS1..4, POD1, POD2, PODALL. */
  function MXRProfile(n: nat): Profile {
    var p := KeysightProfile(n);
    p.(all := p.all + Numbered("DIFF", 1, n) + Numbered("COMM", 1, n) + Numbered("FUNC", 1, 16)
              + ["HIST"] + Numbered("WMEM", 1, 8) + Numbered("BUS", 1, 4) + ["POD1", "POD2", "PODALL"],
       series := "MXR")
  }

  function EXRProfile(n: nat): Profile {
    MXRProfile(n).(series := "EXR")
  }

  /**
   * The profile the class's constructor leaves when built with only a resource and
   * a wait time, as getBestClass builds it. The UXR classes are not part of this model.
   */
  function ProfileOf(tag: ClassTag): Option<Profile> {
    match tag
    case Keysight => Some(KeysightProfile(2))
    case DSOX => Some(DSOXProfile(2))
    case MSOX => Some(MSOXProfile(2))
    case DSOX3xx2A => Some(DSOXProfile(2).(series := "DSOX3"))
    case DSOX3xx4A => Some(DSOXProfile(4).(series := "DSOX3"))
    case MSOX3xx2A => Some(MSOXProfile(2).(series := "MSOX3"))
    case MSOX3xx4A => Some(MSOXProfile(4).(series := "MSOX3"))
    case DSOX3xx2T => Some(DSOXProfile(2).(series := "DSOX3T", versionLegacy := 9.999))
    case DSOX3xx4T => Some(DSOXProfile(4).(series := "DSOX3T", versionLegacy := 9.999))
    case MSOX3xx2T => Some(MSOXProfile(2).(series := "MSOX3T", versionLegacy := 9.999))
    case MSOX3xx4T => Some(MSOXProfile(4).(series := "MSOX3T", versionLegacy := 9.999))
    case MXR => Some(MXRProfile(4))
    case MXRxx8A => Some(MXRProfile(8))
    case MXRxx4A => Some(MXRProfile(4))
    case EXR => Some(EXRProfile(4))
    case EXRxx8A => Some(EXRProfile(8))
    case EXRxx4A => Some(EXRProfile(4))
    case _ => None
  }

  // ---------------------------------------------------------------- properties

  /** The Keysight full list is channelStr applied to 1..n, while the analog list stays numeric. */
  lemma KeysightListsAreChannelStr(n: nat)
    ensures var p := KeysightProfile(n);
      |p.all| == |p.analog| == n
      && forall i :: 0 <= i < n ==>
           (StrChannel(p.all[i]) == ChannelStr(IntChannel(i + 1))
            && ChannelStr(StrChannel(p.analog[i])) == StrChannel(p.all[i]))
  {
    var p := KeysightProfile(n);
    forall i | 0 <= i < n
      ensures StrChannel(p.all[i]) == ChannelStr(IntChannel(i + 1))
      ensures ChannelStr(StrChannel(p.analog[i])) == StrChannel(p.all[i])
    {
      NumberedAt("", 1, n, i);
      NumberedAt("CHAN", 1, n, i);
      assert "" + NatToString(i + 1) == NatToString(i + 1);
      ChannelStrOfDigits(i + 1);
    }
  }

  /** MSOX adds the two digital pods to the full list only. */
  lemma MSOXAddsPods(n: nat)
    ensures MSOXProfile(n).analog == KeysightProfile(n).analog
    ensures MSOXProfile(n).all == KeysightProfile(n).all + ["POD1", "POD2"]
    ensures "POD1" in MSOXProfile(n).all && "POD2" in MSOXProfile(n).all
    ensures "POD1" !in KeysightProfile(n).all
  {
    var a := MSOXProfile(n).all;
    assert a[n] == "POD1" && a[n + 1] == "POD2";
    assert "POD1"[..4][0] != "CHAN"[0];
    NotInNumbered("CHAN", 1, n, "POD1");
  }

  /** A name without a group's stem is not in that group. */
  lemma NotInNumbered(stem: string, lo: nat, hi: nat, x: string)
    requires !StartsWith(x, stem)
    ensures x !in Numbered(stem, lo, hi)
  {
    if x in Numbered(stem, lo, hi) {
      NumberedHaveStem(stem, lo, hi, x);
    }
  }

  /** Every name in a numbered group starts with the group's stem. */
  lemma NumberedHaveStem(stem: string, lo: nat, hi: nat, x: string)
    requires x in Numbered(stem, lo, hi)
    ensures StartsWith(x, stem)
  {
    var r := Numbered(stem, lo, hi);
    var i :| 0 <= i < |r| && r[i] == x;
    NumberedAt(stem, lo, hi, i);
    assert x[..|stem|] == stem;
  }

  /** The MXR full list, group by group in the order the constructor appends them. */
  function MXRGroups(n: nat): seq<seq<string>> {
    [Numbered("CHAN", 1, n), Numbered("DIFF", 1, n), Numbered("COMM", 1, n), Numbered("FUNC", 1, 16),
     ["HIST"], Numbered("WMEM", 1, 8), Numbered("BUS", 1, 4), ["POD1", "POD2", "PODALL"]]
  }

  function Concat(groups: seq<seq<string>>): (r: seq<string>)
    ensures groups != [] ==> r == Concat(groups[..|groups| - 1]) + groups[|groups| - 1]
  {
    if groups == [] then [] else Concat(groups[..|groups| - 1]) + groups[|groups| - 1]
  }

  /** The MXR full list is its groups in order: n channels, n differential, n common-mode, ... */
  lemma MXRListLayout(n: nat)
    ensures MXRProfile(n).all == Concat(MXRGroups(n))
    ensures |MXRProfile(n).all| == 3 * n + 32
    ensures MXRProfile(n).analog == AnalogNames(n)
  {
    var g := MXRGroups(n);
    assert g[..1] == [g[0]] && g[..0] == [];
    assert Concat(g[..1]) == g[0] by { assert Concat(g[..1][..0]) == []; }
    assert g[..2][..1] == g[..1];
    assert g[..3][..2] == g[..2];
    assert g[..4][..3] == g[..3];
    assert g[..5][..4] == g[..4];
    assert g[..6][..5] == g[..5];
    assert g[..7][..6] == g[..6];
    assert g[..8][..7] == g[..7];
    assert g[..8] == g;
  }

  /** EXR is built on MXR: for the same channel count the channel lists agree. */
  lemma EXRListsEqualMXR(n: nat)
    ensures EXRProfile(n).all == MXRProfile(n).all
    ensures EXRProfile(n).analog == MXRProfile(n).analog
    ensures EXRProfile(n).maxChannel == MXRProfile(n).maxChannel
    ensures EXRProfile(n).series == "EXR" && MXRProfile(n).series == "MXR"
  {
  }

  /** Only T-suffix models raise the legacy threshold; every other Keysight class keeps 2.99. */
  lemma ThresholdByClass(tag: ClassTag)
    requires ProfileOf(tag).Some?
    ensures ProfileOf(tag).value.versionLegacy
         == if tag in {DSOX3xx2T, DSOX3xx4T, MSOX3xx2T, MSOX3xx4T} then 9.999 else 2.99
  {
  }

  /** The analog list always has exactly maxChannel names, "1".."maxChannel". */
  lemma AnalogMatchesChannelCount(tag: ClassTag)
    requires ProfileOf(tag).Some?
    ensures ProfileOf(tag).value.analog == AnalogNames(ProfileOf(tag).value.maxChannel)
    ensures |ProfileOf(tag).value.analog| == ProfileOf(tag).value.maxChannel
  {
  }

  /** MXR and EXR model strings choose the channel count by their suffix. */
  lemma MXRFamilyBySuffix(m: string)
    requires StartsWith(m, "MXR") || StartsWith(m, "EXR")
    ensures ProfileOf(ModelClass(m)).Some?
    ensures ProfileOf(ModelClass(m)).value.maxChannel == (if EndsWith(m, "8A") then 8 else 4)
    ensures ProfileOf(ModelClass(m)).value.series == (if StartsWith(m, "MXR") then "MXR" else "EXR")
  {
    if StartsWith(m, "MXR") {
      StartsWithFirstChar(m, "MXR");
      assert !StartsWith(m, "EXR") by { assert m[..3][0] == 'M'; }
    }
  }

  /** A DSO-X or MSO-X model gets a 3000-series class only with the "3" prefix and an A/T suffix. */
  lemma XSeriesNeeds3000Prefix(m: string)
    requires StartsWith(m, "DSO-X") || StartsWith(m, "MSO-X")
    ensures ModelClass(m) !in {DSOX, MSOX} ==>
      (StartsWith(m, "DSO-X 3") || StartsWith(m, "MSO-X 3"))
      && (EndsWith(m, "4A") || EndsWith(m, "2A") || EndsWith(m, "4T") || EndsWith(m, "2T"))
    ensures StartsWith(m, "DSO-X") ==> ModelClass(m) in {DSOX, DSOX3xx2A, DSOX3xx4A, DSOX3xx2T, DSOX3xx4T}
    ensures StartsWith(m, "MSO-X") ==> ModelClass(m) in {MSOX, MSOX3xx2A, MSOX3xx4A, MSOX3xx2T, MSOX3xx4T}
  {
    if StartsWith(m, "DSO-X") {
      StartsWithFirstChar(m, "DSO-X");
    } else {
      StartsWithFirstChar(m, "MSO-X");
    }
    assert m[..5][1] == 'S';
    assert !StartsWith(m, "MXR") && !StartsWith(m, "EXR") && !StartsWith(m, "UXR") by {
      assert m[1] == 'S';
      assert "MXR"[1] == 'X' && "EXR"[1] == 'X' && "UXR"[1] == 'X';
      if |m| >= 3 {
        assert m[..3][1] == 'S';
      }
    }
  }

  /** The analog channels of a built profile are a prefix-free subset of the valid channels' numbering. */
  lemma ProfileAnalogCount(tag: ClassTag, k: nat)
    requires ProfileOf(tag).Some?
    ensures NatToString(k) in ProfileOf(tag).value.analog <==> 1 <= k <= ProfileOf(tag).value.maxChannel
  {
    AnalogMatchesChannelCount(tag);
    AnalogMembership(ProfileOf(tag).value.maxChannel, k);
  }

  /**
   * A model written without the hyphen ("MSOX3034A", "DSOX1204G") matches none of the
   * family prefixes and falls through to the generic Keysight class.
   */
  lemma NoHyphenIsGeneric(m: string)
    requires StartsWith(m, "MSOX") || StartsWith(m, "DSOX")
    ensures ModelClass(m) == Keysight
  {
    assert m[..4][1] == 'S' && m[..4][3] == 'X';
    assert m[1] == 'S' && m[3] == 'X';
    assert !StartsWith(m, "MXR") && !StartsWith(m, "EXR") && !StartsWith(m, "UXR") by {
      assert m[..3][1] == 'S';
    }
    assert !StartsWith(m, "DSO-X") && !StartsWith(m, "MSO-X") by {
      if |m| >= 5 {
        assert m[..5][3] == 'X';
      }
    }
  }
}
