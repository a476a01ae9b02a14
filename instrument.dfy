/**
 * The instrument session as an object: the SCPI fields, the transport replaced
 * by a script of replies with a log of what was sent, the error-queue drain
 * loop, the query and write wrappers, the identity read on open, and the
 * constructor chain of the driver classes.
 */
module Instrument {
  import opened Results
  import opened Text
  import opened Scpi
  import opened Profiles
  import opened Waveform

  /** The part of the session every transport call changes. */
  datatype Link = Link(replies: seq<Reply>, log: seq<string>, legacyError: bool)

  /** The rest of the session, which transport calls leave alone. */
  datatype Config = Config(prefix: string, readStrip: string, version: Version, versionLegacy: Threshold,
                           manufacturer: string, model: string, serial: string, channel: Channel,
                           series: string, maxChannel: nat, analog: seq<string>, all: seq<string>)

  /** The script after n transport calls. */
  function Drop(replies: seq<Reply>, n: nat): (r: seq<Reply>)
    ensures |r| == if n <= |replies| then |replies| - n else 0
  {
    if n <= |replies| then replies[n..] else []
  }

  lemma DropTail(replies: seq<Reply>, n: nat)
    ensures Drop(replies, n + 1) == Tail(Drop(replies, n))
  {
  }

  /** The reply the n-th read takes is the n-th one observed. */
  lemma ObserveAt(replies: seq<Reply>, readStrip: string, n: nat)
    ensures Observe(Head(Drop(replies, n)), readStrip) == ObsAt(ObserveAll(replies, readStrip), n)
  {
    if n < |replies| {
      ObserveAllAt(replies, readStrip, n);
    }
  }

  lemma {:induction false} DrainCommandsSnoc(prefix: string, forms: seq<ErrorForm>, f: ErrorForm)
    ensures DrainCommands(prefix, forms + [f]) == DrainCommands(prefix, forms) + [prefix + FormCommand(f)]
  {
    if forms != [] {
      assert (forms + [f])[1..] == forms[1..] + [f];
      DrainCommandsSnoc(prefix, forms[1..], f);
    }
  }

  /** A log that holds the drain's reads so far, extended by one more read. */
  lemma LogSnoc(log0: seq<string>, prefix: string, forms: seq<ErrorForm>, f: ErrorForm)
    ensures (log0 + DrainCommands(prefix, forms)) + [prefix + FormCommand(f)] == log0 + DrainCommands(prefix, forms + [f])
  {
    DrainCommandsSnoc(prefix, forms, f);
  }

  /** A read that ends the drain: what was read is the whole drain. */
  lemma DrainEndsHere(whole: Drain, f: ErrorForm, rs: seq<Reading>, done: nat, errors: bool,
                      forms: seq<ErrorForm>, kinds: seq<StepKind>)
    requires done < ErrorQueue && DrainSoFar(whole, f, rs, done, errors, forms, kinds)
    requires Ends(Under(f, ReadingAt(rs, done)))
    ensures var k := Under(f, ReadingAt(rs, done));
      whole == Drain(errors || k == Fault, f, forms + [f], kinds + [k])
  {
    DrainStep(f, rs, done, errors);
  }

  /** A read that does not end the drain: the rest goes on from the form it leaves. */
  lemma DrainGoesOn(whole: Drain, f: ErrorForm, rs: seq<Reading>, done: nat, errors: bool,
                    forms: seq<ErrorForm>, kinds: seq<StepKind>)
    requires done < ErrorQueue && DrainSoFar(whole, f, rs, done, errors, forms, kinds)
    requires !Ends(Under(f, ReadingAt(rs, done)))
    ensures var k := Under(f, ReadingAt(rs, done));
      DrainSoFar(whole, NextForm(f, k), rs, done + 1, errors || k == Entry, forms + [f], kinds + [k])
  {
    var k := Under(f, ReadingAt(rs, done));
    var d := DrainFrom(f, rs, done, errors);
    var rest := DrainFrom(NextForm(f, k), rs, done + 1, errors || k == Entry);
    DrainStep(f, rs, done, errors);
    assert d.forms == [f] + rest.forms && d.kinds == [k] + rest.kinds;
    assert forms + ([f] + rest.forms) == (forms + [f]) + rest.forms;
    assert kinds + ([k] + rest.kinds) == (kinds + [k]) + rest.kinds;
  }

  /** One read of the drain: the form's query logged, its reply taken and classified. */
  method ReadEntry(form: ErrorForm, replies: seq<Reply>, log: seq<string>, prefix: string, readStrip: string,
                   ghost replies0: seq<Reply>, ghost n: nat)
    returns (k: StepKind, replies': seq<Reply>, log': seq<string>)
    requires replies == Drop(replies0, n)
    ensures log' == log + [prefix + FormCommand(form)]
    ensures replies' == Tail(replies) == Drop(replies0, n + 1)
    ensures k == Under(form, ReadingAt(Readings(ObserveAll(replies0, readStrip)), n))
  {
    DropTail(replies0, n);
    ObserveAt(replies0, readStrip, n);
    ReadingAtObs(ObserveAll(replies0, readStrip), form, n);
    log' := log + [prefix + FormCommand(form)];
    var reply := Head(replies);
    replies' := Tail(replies);
    k := Classify(form, Observe(reply, readStrip));
  }

  /** The drain state after count reads: what is still to come continues what was read. */
  ghost predicate DrainSoFar(whole: Drain, form: ErrorForm, rs: seq<Reading>, count: nat, errors: bool,
                             forms: seq<ErrorForm>, kinds: seq<StepKind>)
  {
    count <= ErrorQueue &&
    var rest := DrainFrom(form, rs, count, errors);
    whole.errors == rest.errors && whole.form == rest.form
    && whole.forms == forms + rest.forms && whole.kinds == kinds + rest.kinds
  }

  /**
   * The loop state of the drain after count reads: one reply consumed and one
   * command logged per read, and the reads so far a prefix of the whole drain.
   */
  ghost predicate DrainLoop(replies0: seq<Reply>, log0: seq<string>, prefix: string, readStrip: string,
                            whole: Drain, form: ErrorForm, replies: seq<Reply>, log: seq<string>,
                            errors: bool, count: nat, forms: seq<ErrorForm>, kinds: seq<StepKind>)
  {
    |forms| == |kinds| == count
    && replies == Drop(replies0, count) && log == log0 + DrainCommands(prefix, forms)
    && DrainSoFar(whole, form, Readings(ObserveAll(replies0, readStrip)), count, errors, forms, kinds)
  }

  /**
   * One pass of the drain loop: one read, then either the drain is over
   * (stop, and whole is what was read) or it goes on from the next form.
   * A step of DrainReads: its contract relates the real results to the ghost
   * drain specification whole, and DrainReads' own contract is the one that
   * states the loop's outcome.
   */
  method DrainPass(form: ErrorForm, replies: seq<Reply>, log: seq<string>, errors: bool, count: nat,
                   prefix: string, readStrip: string, ghost replies0: seq<Reply>, ghost log0: seq<string>,
                   ghost whole: Drain, ghost forms: seq<ErrorForm>, ghost kinds: seq<StepKind>)
    returns (stop: bool, form': ErrorForm, replies': seq<Reply>, log': seq<string>, errors': bool,
             ghost forms': seq<ErrorForm>, ghost kinds': seq<StepKind>)
    requires count < ErrorQueue
    requires DrainLoop(replies0, log0, prefix, readStrip, whole, form, replies, log, errors, count, forms, kinds)
    ensures stop ==> whole == Drain(errors', form', forms', kinds')
                     && replies' == Drop(replies0, |kinds'|) && log' == log0 + DrainCommands(prefix, forms')
    ensures !stop ==> DrainLoop(replies0, log0, prefix, readStrip, whole, form', replies', log', errors', count + 1, forms', kinds')
  {
    ghost var rs := Readings(ObserveAll(replies0, readStrip));
    var k;
    k, replies', log' := ReadEntry(form, replies, log, prefix, readStrip, replies0, count);
    LogSnoc(log0, prefix, forms, form);
    forms' := forms + [form];
    kinds' := kinds + [k];
    stop := Ends(k);
    if stop {
      DrainEndsHere(whole, form, rs, count, errors, forms, kinds);
      errors' := errors || k == Fault;
      form' := form;
    } else {
      DrainGoesOn(whole, form, rs, count, errors, forms, kinds);
      errors' := errors || k == Entry;
      form' := NextForm(form, k);
    }
  }

  /**
   * The loop of checkInstErrors from a given form: at most ErrorQueue reads,
   * the transport and the legacy flag it updates returned as a Link.
   */
  method DrainReads(form0: ErrorForm, replies0: seq<Reply>, log0: seq<string>, prefix: string, readStrip: string)
    returns (errors: bool, w: Link)
    ensures var d := DrainAll(form0, replies0, readStrip);
      errors == d.errors && w == Link(Drop(replies0, |d.kinds|), log0 + DrainCommands(prefix, d.forms), d.form == LegacyForm)
  {
    var form := form0;
    var replies := replies0;
    var log := log0;
    ghost var whole := DrainAll(form0, replies0, readStrip);
    ghost var forms: seq<ErrorForm> := [];
    ghost var kinds: seq<StepKind> := [];
    errors := false;
    var count: nat := 0;
    while count < ErrorQueue
      invariant DrainLoop(replies0, log0, prefix, readStrip, whole, form, replies, log, errors, count, forms, kinds)
    {
      var stop;
      stop, form, replies, log, errors, forms, kinds :=
        DrainPass(form, replies, log, errors, count, prefix, readStrip, replies0, log0, whole, forms, kinds);
      if stop {
        return errors, Link(replies, log, form == LegacyForm);
      }
      count := count + 1;
    }
    assert forms + [] == forms && kinds + [] == kinds;
    w := Link(replies, log, form == LegacyForm);
  }

  /**
   * checkInstErrors on a session: the entry form (or the TypeError its version
   * comparison raises), then the drain, each read one transport call with the
   * session prefix; the legacy flag ends up naming the form in use.
   */
  function DrainSpec(w: Link, c: Config): (Result<bool>, Link) {
    match EntryForm(w.legacyError, c.version, c.versionLegacy)
    case Err(e) => (Err(e), w)
    case Ok(f) =>
      var d := DrainAll(f, w.replies, c.readStrip);
      (Ok(d.errors), Link(Drop(w.replies, |d.kinds|), w.log + DrainCommands(c.prefix, d.forms), d.form == LegacyForm))
  }

  /**
   * One transport call with its error check: the prefixed command is sent and
   * takes the next reply; with checkErrors the error queue is drained after it,
   * whether the call failed or not, and a failure of the drain itself wins.
   */
  function CallSpec(w: Link, c: Config, cmd: string, checkErrors: bool): (Result<Reply>, Link) {
    match PrefixCommand(c.prefix, cmd)
    case Err(e) => (Err(e), w)
    case Ok(wire) =>
      var sent := Link(Tail(w.replies), w.log + [wire], w.legacyError);
      if !checkErrors then (Ok(Head(w.replies)), sent)
      else
        var (e, after) := DrainSpec(sent, c);
        if e.Err? then (Err(e.error), after) else (Ok(Head(w.replies)), after)
  }

  /** The reply text of a query call, trailing read_strip characters removed. */
  function QueryText(c: Result<Reply>, readStrip: string): Result<string> {
    if c.Err? then Err(c.error)
    else if TextOf(c.value).Err? then Err(TextOf(c.value).error)
    else Ok(StripReply(readStrip, TextOf(c.value).value))
  }

  /** The call's log is the old log, the command sent, then the drain's reads. */
  lemma CallLogs(w: Link, c: Config, cmd: string, checkErrors: bool)
    requires PrefixCommand(c.prefix, cmd).Ok?
    ensures var l := CallSpec(w, c, cmd, checkErrors).1.log;
      |l| > |w.log| && l[..|w.log| + 1] == w.log + [PrefixCommand(c.prefix, cmd).value]
  {
    var l := CallSpec(w, c, cmd, checkErrors).1.log;
    var sent := w.log + [PrefixCommand(c.prefix, cmd).value];
    if checkErrors && EntryForm(w.legacyError, c.version, c.versionLegacy).Ok? {
      assert l[..|w.log| + 1] == sent;
    }
  }

  /**
   * The identity fields _getID stores from the split reply: the fields present,
   * in order, up to the first one missing; the version only when all four are there.
   */
  function IdnFields(c: Config, idn: seq<string>): (c': Config)
    requires |idn| >= 1
    ensures |idn| >= 4 ==> c' == IdentifiedConfig(c, Identity(idn[0], idn[1], idn[2], ParseVersion(idn[3])))
    ensures |idn| < 4 ==> c'.version == c.version && c'.versionLegacy == c.versionLegacy
    ensures c'.manufacturer == idn[0] && (|idn| >= 2 ==> c'.model == idn[1]) && (|idn| >= 3 ==> c'.serial == idn[2])
    ensures c'.prefix == c.prefix && c'.channel == c.channel && c'.all == c.all
  {
    var c1 := c.(manufacturer := idn[0]);
    var c2 := if |idn| >= 2 then c1.(model := idn[1]) else c1;
    var c3 := if |idn| >= 3 then c2.(serial := idn[2]) else c2;
    if |idn| >= 4 then IdentifiedConfig(c, Identity(idn[0], idn[1], idn[2], ParseVersion(idn[3]))) else c3
  }

  /** The same on the reply text; it agrees with ParseIdn when the reply is complete. */
  function IdnAssigned(c: Config, reply: string): (c': Config)
    ensures ParseIdn(reply).Ok? ==> c' == IdentifiedConfig(c, ParseIdn(reply).value)
    ensures ParseIdn(reply).Err? ==> c'.version == c.version && c'.versionLegacy == c.versionLegacy
  {
    IdnFields(c, Split(reply, ','))
  }

  /** A write succeeds unless the transport reports an error. */
  function WriteOutcome(r: Reply): Result<()> {
    match r
    case Timeout => Err(IoTimeout)
    case OtherIOError => Err(IoOther)
    case _ => Ok(())
  }

  /** A block or number-list query ends the process on any transport failure. */
  function BlockOutcome(r: Reply): Result<seq<byte>> {
    if r.Block? then Ok(r.bytes) else Err(ProcessExit)
  }

  function NumbersOutcome(r: Reply): Result<seq<real>> {
    if r.Numbers? then Ok(r.values) else Err(ProcessExit)
  }

  /** The identity fields after *IDN?. */
  function IdentifiedConfig(c: Config, id: Identity): (c': Config)
    ensures c'.version == id.version && c'.versionLegacy == ThresholdAfter(id, c.versionLegacy)
  {
    c.(manufacturer := id.manufacturer, model := id.model, serial := id.serial,
       version := id.version, versionLegacy := ThresholdAfter(id, c.versionLegacy))
  }

  // ---------------------------------------------------------------- downloads

  /** One transport call of a waveform download, named by the wrapper that makes it. */
  datatype Ask =
    | Send(cmd: string)         // _instWrite
    | AskText(cmd: string)      // _instQuery
    | AskBlock(cmd: string)     // _instQueryIEEEBlock
    | AskNumbers(cmd: string)   // _instQueryNumbers

  /** What a successful call hands back. */
  datatype Answer = Done | Said(text: string) | Bytes(bytes: seq<byte>) | Values(values: seq<real>)

  /** The kind of answer each kind of call gives. */
  predicate Fits(a: Ask, x: Answer) {
    match a
    case Send(_) => x.Done?
    case AskText(_) => x.Said?
    case AskBlock(_) => x.Bytes?
    case AskNumbers(_) => x.Values?
  }

  /** How each wrapper reads the outcome of its transport call. */
  function Outcome(a: Ask, c: Result<Reply>, readStrip: string): (r: Result<Answer>)
    ensures r.Ok? ==> c.Ok? && Fits(a, r.value)
  {
    if c.Err? then Err(c.error)
    else match a
    case Send(_) => var o := WriteOutcome(c.value); if o.Err? then Err(o.error) else Ok(Done)
    case AskText(_) => var t := QueryText(c, readStrip); if t.Err? then Err(t.error) else Ok(Said(t.value))
    case AskBlock(_) => var b := BlockOutcome(c.value); if b.Err? then Err(b.error) else Ok(Bytes(b.value))
    case AskNumbers(_) => var n := NumbersOutcome(c.value); if n.Err? then Err(n.error) else Ok(Values(n.value))
  }

  /**
   * A run of calls, each with its error check, in order; the first failure
   * ends the run, as the exception it raises ends the download.
   */
  function Exchange(w: Link, c: Config, asks: seq<Ask>): (r: (Result<seq<Answer>>, Link))
    ensures r.0.Ok? ==> |r.0.value| == |asks| && forall i :: 0 <= i < |asks| ==> Fits(asks[i], r.0.value[i])
    decreases |asks|
  {
    if asks == [] then (Ok([]), w)
    else
      var (call, w1) := CallSpec(w, c, asks[0].cmd, true);
      var o := Outcome(asks[0], call, c.readStrip);
      if o.Err? then (Err(o.error), w1)
      else
        var (rest, w2) := Exchange(w1, c, asks[1..]);
        if rest.Err? then (Err(rest.error), w2) else (Ok([o.value] + rest.value), w2)
  }

  /** The string a command goes on the wire as (the prefix rule). */
  function WireOf(prefix: string, cmd: string): string {
    if cmd != [] && cmd[0] == '*' then cmd else prefix + cmd
  }

  function Wires(prefix: string, asks: seq<Ask>): (l: seq<string>)
    ensures |l| == |asks|
  {
    if asks == [] then [] else [WireOf(prefix, asks[0].cmd)] + Wires(prefix, asks[1..])
  }

  /** xs occurs in ys in order, possibly with other entries in between. */
  predicate InOrder(xs: seq<string>, ys: seq<string>)
    decreases |ys|
  {
    if xs == [] then true
    else if ys == [] then false
    else if xs[0] == ys[0] then InOrder(xs[1..], ys[1..])
    else InOrder(xs, ys[1..])
  }

  /** l0 is where l starts. */
  predicate Extends(l0: seq<string>, l: seq<string>) {
    |l0| <= |l| && l[..|l0|] == l0
  }

  lemma {:induction false} InOrderDropFirst(xs: seq<string>, ys: seq<string>)
    requires xs != [] && InOrder(xs, ys)
    ensures InOrder(xs[1..], ys)
    decreases |ys|
  {
    if xs[0] != ys[0] {
      InOrderDropFirst(xs, ys[1..]);
    }
    assert InOrder(xs[1..], ys[1..]);
    if xs[1..] != [] && xs[1..][0] == ys[0] {
      InOrderDropFirst(xs[1..], ys[1..]);
    }
  }

  lemma InOrderCons(xs: seq<string>, y: string, ys: seq<string>)
    requires InOrder(xs, ys)
    ensures InOrder(xs, [y] + ys)
  {
    assert ([y] + ys)[1..] == ys;
    if xs != [] && xs[0] == y {
      InOrderDropFirst(xs, ys);
    }
  }

  lemma {:induction false} InOrderPad(xs: seq<string>, zs: seq<string>, ys: seq<string>)
    requires InOrder(xs, ys)
    ensures InOrder(xs, zs + ys)
    decreases |zs|
  {
    if zs == [] {
      assert zs + ys == ys;
    } else {
      var t := zs[1..] + ys;
      InOrderPad(xs, zs[1..], ys);
      InOrderCons(xs, zs[0], t);
      assert zs + ys == [zs[0]] + t;
    }
  }

  lemma {:induction false} InOrderAppend(a: seq<string>, x: seq<string>, b: seq<string>, y: seq<string>)
    requires InOrder(a, x) && InOrder(b, y)
    ensures InOrder(a + b, x + y)
    decreases |x|
  {
    if a == [] {
      assert a + b == b;
      InOrderPad(b, x, y);
    } else {
      assert x != [];
      assert (x + y)[1..] == x[1..] + y;
      if a[0] == x[0] {
        assert (a + b)[1..] == a[1..] + b;
        InOrderAppend(a[1..], x[1..], b, y);
      } else {
        InOrderAppend(a, x[1..], b, y);
      }
    }
  }

  /** A call only adds to the log, whatever its outcome. */
  lemma CallExtends(w: Link, c: Config, cmd: string, checkErrors: bool)
    ensures Extends(w.log, CallSpec(w, c, cmd, checkErrors).1.log)
  {
    if cmd != [] {
      CallLogs(w, c, cmd, checkErrors);
    }
  }

  lemma {:induction false} ExchangeExtends(w: Link, c: Config, asks: seq<Ask>)
    ensures Extends(w.log, Exchange(w, c, asks).1.log)
    decreases |asks|
  {
    if asks != [] {
      var (call, w1) := CallSpec(w, c, asks[0].cmd, true);
      CallExtends(w, c, asks[0].cmd, true);
      if Outcome(asks[0], call, c.readStrip).Ok? {
        ExchangeExtends(w1, c, asks[1..]);
      }
    }
  }

  /** The first call of a run that succeeds, and the run that follows it. */
  lemma ExchangeFirst(w: Link, c: Config, asks: seq<Ask>)
    requires asks != [] && Exchange(w, c, asks).0.Ok?
    ensures var (call, w1) := CallSpec(w, c, asks[0].cmd, true);
      call.Ok? && asks[0].cmd != []
      && Exchange(w1, c, asks[1..]).0.Ok? && Exchange(w, c, asks).1 == Exchange(w1, c, asks[1..]).1
  {
  }

  /** A log that starts with l0 and one command, then grows on: the command, then the rest, in order. */
  lemma InOrderStep(l0: seq<string>, wire: string, l1: seq<string>, l: seq<string>, rest: seq<string>)
    requires |l1| > |l0| && l1[..|l0| + 1] == l0 + [wire]
    requires Extends(l1, l) && InOrder(rest, l[|l1|..])
    ensures Extends(l0, l) && InOrder([wire] + rest, l[|l0|..])
  {
    var mid := l1[|l0| + 1..];
    var tail := l[|l1|..];
    assert l1 == l0 + [wire] + mid;
    assert l == l1 + tail;
    assert l[..|l0|] == l0;
    assert l[|l0|..] == [wire] + (mid + tail);
    InOrderPad(rest, mid, tail);
    assert ([wire] + rest)[1..] == rest;
  }

  /**
   * A run that succeeds has sent every one of its commands, prefixed, in
   * order; only the error-queue reads come in between.
   */
  lemma {:induction false} ExchangeSends(w: Link, c: Config, asks: seq<Ask>)
    requires Exchange(w, c, asks).0.Ok?
    ensures var l := Exchange(w, c, asks).1.log;
      Extends(w.log, l) && InOrder(Wires(c.prefix, asks), l[|w.log|..])
    decreases |asks|
  {
    if asks != [] {
      var w1 := CallSpec(w, c, asks[0].cmd, true).1;
      ExchangeFirst(w, c, asks);
      var wire := WireOf(c.prefix, asks[0].cmd);
      assert PrefixCommand(c.prefix, asks[0].cmd) == Ok(wire);
      CallLogs(w, c, asks[0].cmd, true);
      ExchangeSends(w1, c, asks[1..]);
      InOrderStep(w.log, wire, w1.log, Exchange(w1, c, asks[1..]).1.log, Wires(c.prefix, asks[1..]));
    }
  }

  lemma {:induction false} WiresAppend(prefix: string, xs: seq<Ask>, ys: seq<Ask>)
    ensures Wires(prefix, xs + ys) == Wires(prefix, xs) + Wires(prefix, ys)
    decreases |xs|
  {
    if xs == [] {
      assert xs + ys == ys;
    } else {
      assert (xs + ys)[0] == xs[0] && (xs + ys)[1..] == xs[1..] + ys;
      WiresAppend(prefix, xs[1..], ys);
    }
  }

  /** Two stretches of a growing log, each holding its list in order, hold both lists in order. */
  lemma InOrderChain(l0: seq<string>, l1: seq<string>, l2: seq<string>, a: seq<string>, b: seq<string>)
    requires Extends(l0, l1) && InOrder(a, l1[|l0|..])
    requires Extends(l1, l2) && InOrder(b, l2[|l1|..])
    ensures Extends(l0, l2) && InOrder(a + b, l2[|l0|..])
  {
    assert l2[|l0|..] == l1[|l0|..] + l2[|l1|..];
    InOrderAppend(a, l1[|l0|..], b, l2[|l1|..]);
  }

  /** Two runs that succeed one after the other send both command lists, in order. */
  lemma ExchangesSend(w: Link, c: Config, xs: seq<Ask>, ys: seq<Ask>)
    requires Exchange(w, c, xs).0.Ok? && Exchange(Exchange(w, c, xs).1, c, ys).0.Ok?
    ensures var l := Exchange(Exchange(w, c, xs).1, c, ys).1.log;
      Extends(w.log, l) && InOrder(Wires(c.prefix, xs + ys), l[|w.log|..])
  {
    var w1 := Exchange(w, c, xs).1;
    ExchangeSends(w, c, xs);
    ExchangeSends(w1, c, ys);
    InOrderChain(w.log, w1.log, Exchange(w1, c, ys).1.log, Wires(c.prefix, xs), Wires(c.prefix, ys));
    WiresAppend(c.prefix, xs, ys);
  }

  /** The calls of the modern download up to and including the preamble query. */
  function ModernSetup(channel: string, order: ByteOrder): (asks: seq<Ask>)
    ensures |asks| == 6 && asks[1].AskText? && asks[2].AskText? && asks[5].AskText?
  {
    [Send(SourceCommand(channel)), AskText("WAVeform:SOURce?"), AskText("WAVeform:VIEW?"),
     Send(FormatCommand(channel)), Send(ByteOrderCommand(order)), AskText("WAVeform:PREamble?")]
  }

  /** The calls of the modern download after the window is chosen. */
  function ModernFetch(suffix: string): (asks: seq<Ask>)
    ensures |asks| == 2 && asks[1].AskBlock?
  {
    [Send("WAVeform:STReaming OFF"), AskBlock("WAVeform:DATA?" + suffix)]
  }

  /**
   * _waveformDataNew on a session: set and read back the source, read the
   * view, request the format and byte order, read and parse the preamble,
   * choose the window, stop streaming, read the block and decode it.
   */
  function ModernSpec(w: Link, c: Config, channel: string, points: Option<int>, order: ByteOrder)
    : (Result<Trace>, Link)
  {
    var (a, w1) := Exchange(w, c, ModernSetup(channel, order));
    if a.Err? then (Err(a.error), w1)
    else ModernRead(w1, c, channel, points, order, a.value[1].text, a.value[2].text, a.value[5].text)
  }

  /** What the modern decoder settles before it reads the block: the preamble, its metadata, the window. */
  datatype ModernPlan = ModernPlan(preamble: Preamble, meta: seq<Meta>, window: Window)

  /** The preamble reply parsed, then the window chosen from it. */
  function PlanModern(channel: string, points: Option<int>, source: string, view: string, preamble: string)
    : (r: Result<ModernPlan>)
    ensures r.Ok? ==> ValidPreamble(r.value.preamble)
  {
    var (p, meta) :- ParsePreamble(preamble, source, view);
    var win :- DataWindow(channel, points, p);
    Ok(ModernPlan(p, meta, win))
  }

  /** The modern download from the preamble reply on. */
  function ModernRead(w: Link, c: Config, channel: string, points: Option<int>, order: ByteOrder,
                      source: string, view: string, preamble: string): (Result<Trace>, Link)
  {
    match PlanModern(channel, points, source, view, preamble)
    case Err(e) => (Err(e), w)
    case Ok(plan) =>
      var (b, w2) := Exchange(w, c, ModernFetch(plan.window.suffix));
      if b.Err? then (Err(b.error), w2)
      else (DecodeModern(channel, plan.window.start, plan.preamble, plan.meta, b.value[1].bytes, order), w2)
  }

  /** The calls of the legacy download before its preamble query. */
  function LegacySetup(channel: string, points: Option<int>): (asks: seq<Ask>)
    ensures |asks| == (if points.Some? then 9 else 8)
    ensures asks[1].AskText? && asks[2].AskText? && asks[6].AskText? && asks[|asks| - 1].AskText?
  {
    [Send(SourceCommand(channel)), AskText("WAVeform:SOURce?"), AskText("WAVeform:VIEW?"),
     Send("WAVeform:FORMat BYTE"), Send("WAVeform:UNSigned ON"), Send("WAVeform:POINts:MODE MAX"),
     AskText("WAVeform:POINts:MODE?")]
    + (if points.Some? then [Send("WAVeform:POINts " + IntToString(points.value))] else [])
    + [AskText("WAVeform:POINts?")]
  }

  /**
   * _waveformDataLegacy on a session: source, view, unsigned BYTE format and
   * the points mode, the points count (int() of the reply), the ten-number
   * preamble, then the block.
   */
  function LegacySpec(w: Link, c: Config, channel: string, points: Option<int>): (Result<Trace>, Link) {
    var setup := LegacySetup(channel, points);
    var (a, w1) := Exchange(w, c, setup);
    if a.Err? then (Err(a.error), w1)
    else LegacyRead(w1, c, channel, a.value[1].text, a.value[2].text, a.value[6].text, a.value[|setup| - 1].text)
  }

  /** The legacy download from the points reply on. */
  function LegacyRead(w: Link, c: Config, channel: string, source: string, view: string, mode: string,
                      pointsReply: string): (Result<Trace>, Link)
  {
    match ParseInt(pointsReply)
    case None => (Err(ValueError), w)
    case Some(available) =>
      var (n, w2) := Exchange(w, c, [AskNumbers("WAVeform:PREamble?")]);
      if n.Err? then (Err(n.error), w2)
      else
        match ParseLegacyPreamble(n.value[0].values, source, view, mode, available)
        case Err(e) => (Err(e), w2)
        case Ok((p, meta)) =>
          var (b, w3) := Exchange(w2, c, [AskBlock("WAVeform:DATA?")]);
          if b.Err? then (Err(b.error), w3)
          else (DecodeLegacy(channel, p, meta, b.value[0].bytes), w3)
  }

  /** The current channel after waveformData's assignment: the one given unless it is None or a list. */
  function NewCurrent(current: Channel, given: Channel): Channel {
    if given.NoChannel? || given.ListChannel? then current else given
  }

  /**
   * The source waveformData downloads: neither the channel given nor the
   * current one may be a list, and the current one must be a member of the
   * full channel list.
   */
  function WaveformSource(current: Channel, given: Channel, all: seq<string>): (r: Result<string>)
    ensures r.Ok? ==> r.value in all
  {
    var ch := NewCurrent(current, given);
    if ch.ListChannel? || given.ListChannel? then Err(ValueError)
    else if ch.StrChannel? && ch.s in all then Ok(ch.s)
    else Err(ValueError)
  }

  /**
   * waveformData: the channel checks, then the decoder the version selects,
   * run on the session with the new current channel.
   */
  function WaveformSpec(w: Link, c: Config, given: Channel, points: Option<int>, order: ByteOrder)
    : (Result<Trace>, Link)
  {
    var c' := c.(channel := NewCurrent(c.channel, given));
    match WaveformSource(c.channel, given, c.all)
    case Err(e) => (Err(e), w)
    case Ok(s) =>
      DownloadSpec(w, c', s, points, order)
  }

  /**
   * A modern download that succeeds has sent the six set-up commands, then
   * the streaming switch and the block query, in that order.
   */
  lemma ModernSends(w: Link, c: Config, channel: string, points: Option<int>, order: ByteOrder)
    requires ModernSpec(w, c, channel, points, order).0.Ok?
    ensures var l := ModernSpec(w, c, channel, points, order).1.log;
      Extends(w.log, l)
      && exists suffix :: InOrder(Wires(c.prefix, ModernSetup(channel, order) + ModernFetch(suffix)), l[|w.log|..])
  {
    var (a, w1) := Exchange(w, c, ModernSetup(channel, order));
    var plan := PlanModern(channel, points, a.value[1].text, a.value[2].text, a.value[5].text).value;
    ExchangesSend(w, c, ModernSetup(channel, order), ModernFetch(plan.window.suffix));
  }

  /**
   * A legacy download that succeeds has sent its set-up commands, then the
   * preamble query, then the block query, in that order.
   */
  lemma LegacySends(w: Link, c: Config, channel: string, points: Option<int>)
    requires LegacySpec(w, c, channel, points).0.Ok?
    ensures var l := LegacySpec(w, c, channel, points).1.log;
      Extends(w.log, l)
      && InOrder(Wires(c.prefix, LegacySetup(channel, points)
                   + [AskNumbers("WAVeform:PREamble?"), AskBlock("WAVeform:DATA?")]), l[|w.log|..])
  {
    var setup := LegacySetup(channel, points);
    var (a, w1) := Exchange(w, c, setup);
    var rest := [AskNumbers("WAVeform:PREamble?"), AskBlock("WAVeform:DATA?")];
    ExchangeSends(w, c, setup);
    LegacyReadSends(w1, c, channel, a.value[1].text, a.value[2].text, a.value[6].text, a.value[|setup| - 1].text);
    InOrderChain(w.log, w1.log, LegacySpec(w, c, channel, points).1.log, Wires(c.prefix, setup), Wires(c.prefix, rest));
    WiresAppend(c.prefix, setup, rest);
  }

  /** The legacy download after its set-up sends the preamble query, then the block query. */
  lemma LegacyReadSends(w: Link, c: Config, channel: string, source: string, view: string, mode: string,
                        pointsReply: string)
    requires LegacyRead(w, c, channel, source, view, mode, pointsReply).0.Ok?
    ensures var l := LegacyRead(w, c, channel, source, view, mode, pointsReply).1.log;
      Extends(w.log, l) && InOrder(Wires(c.prefix, [AskNumbers("WAVeform:PREamble?"), AskBlock("WAVeform:DATA?")]), l[|w.log|..])
  {
    var pre := [AskNumbers("WAVeform:PREamble?")];
    var data := [AskBlock("WAVeform:DATA?")];
    ExchangesSend(w, c, pre, data);
    assert pre + data == [AskNumbers("WAVeform:PREamble?"), AskBlock("WAVeform:DATA?")];
  }

  /**
   * The channel checks as a rule: the download goes ahead exactly when no
   * list is given and the new current channel is a name in the full list,
   * and a refused request leaves the session untouched.
   */
  lemma WaveformSourceRule(w: Link, c: Config, given: Channel, points: Option<int>, order: ByteOrder)
    ensures var ch := NewCurrent(c.channel, given);
      WaveformSource(c.channel, given, c.all).Ok? <==> (!given.ListChannel? && ch.StrChannel? && ch.s in c.all)
    ensures var ch := NewCurrent(c.channel, given);
      WaveformSource(c.channel, given, c.all).Ok? ==> WaveformSource(c.channel, given, c.all).value == ch.s
    ensures WaveformSource(c.channel, given, c.all).Err? ==> WaveformSpec(w, c, given, points, order) == (Err(ValueError), w)
  {
  }

  /** An unknown versioning scheme stops the download before any call. */
  lemma DownloadNeedsVersion(w: Link, c: Config, source: string, points: Option<int>, order: ByteOrder)
    requires Newer(c.version, c.versionLegacy).Err?
    ensures DownloadSpec(w, c, source, points, order) == (Err(Newer(c.version, c.versionLegacy).error), w)
  {
  }

  /** The version picks the download: the newer command set, or the legacy one. */
  function DownloadSpec(w: Link, c: Config, source: string, points: Option<int>, order: ByteOrder)
    : (Result<Trace>, Link)
  {
    match Newer(c.version, c.versionLegacy)
    case Err(e) => (Err(e), w)
    case Ok(modern) => if modern then ModernSpec(w, c, source, points, order) else LegacySpec(w, c, source, points)
  }

  class Scope {
    var prefix: string
    var readStrip: string
    var replies: seq<Reply>
    var log: seq<string>
    var legacyError: bool
    var version: Version
    var versionLegacy: Threshold
    var manufacturer: string
    var model: string
    var serial: string
    var channel: Channel
    var series: string
    var maxChannel: nat
    var analog: seq<string>
    var all: seq<string>
    var annotationText: string
    var annotationColor: string

    function Wire(): Link
      reads this`replies, this`log, this`legacyError
    {
      Link(replies, log, legacyError)
    }

    function Settings(): Config
      reads this`prefix, this`readStrip, this`version, this`versionLegacy, this`manufacturer, this`model,
            this`serial, this`channel, this`series, this`maxChannel, this`analog, this`all
    {
      Config(prefix, readStrip, version, versionLegacy, manufacturer, model, serial, channel,
             series, maxChannel, analog, all)
    }

    /** What the constructors after the base one leave alone. */
    function Fixed(): (string, string, Version, Channel, string, string, string)
      reads this`prefix, this`readStrip, this`version, this`channel, this`manufacturer, this`model, this`serial
    {
      (prefix, readStrip, version, channel, manufacturer, model, serial)
    }

    /** The settings a constructor chain is to leave behind. */
    predicate Has(p: Profile)
      reads this`series, this`maxChannel, this`versionLegacy, this`analog, this`all
    {
      series == p.series && maxChannel == p.maxChannel && versionLegacy == Level(p.versionLegacy)
      && analog == p.analog && all == p.all
    }

    /**
     * The base session (SCPI and Oscilloscope constructors): prefix ':', replies
     * stripped of '\n', channel 1, version and threshold 0.0, legacy errors,
     * channels "1".."n" and the two pods, series GENERIC.
     */
    constructor Oscilloscope(n: nat, script: seq<Reply>)
      ensures Wire() == Link(script, [], true)
      ensures prefix == ":" && readStrip == "\n" && channel == IntChannel(1)
      ensures version == InitialVersion && manufacturer == "" && model == "" && serial == ""
      ensures Has(OscilloscopeProfile(n))
    {
      prefix := ":";
      readStrip := "\n";
      replies := script;
      log := [];
      legacyError := true;
      version := InitialVersion;
      versionLegacy := InitialThreshold;
      manufacturer := "";
      model := "";
      serial := "";
      channel := IntChannel(1);
      maxChannel := n;
      analog := AnalogNames(n);
      all := analog + ["POD1", "POD2"];
      series := "GENERIC";
      annotationText := "";
      annotationColor := "";
    }

    /** The Keysight constructor's additions: CHAN1..CHANn, series KEYSIGHT, threshold 2.99. */
    method InitKeysight()
      modifies this`analog, this`all, this`series, this`versionLegacy, this`annotationText, this`annotationColor
      ensures Has(KeysightProfile(maxChannel)) && maxChannel == old(maxChannel)
      ensures unchanged(this`replies, this`log, this`legacyError)
      ensures unchanged(this`prefix, this`readStrip, this`version, this`channel, this`manufacturer, this`model, this`serial)
      ensures annotationText == "" && annotationColor == "ch1"
    {
      analog := AnalogNames(maxChannel);
      all := Numbered("CHAN", 1, maxChannel);
      series := "KEYSIGHT";
      versionLegacy := Level(2.99);
      annotationText := "";
      annotationColor := "ch1";
    }

    /** MSOX: the two pods appended to the full list in place. */
    method AddPods()
      modifies this
      ensures all == old(all) + ["POD1", "POD2"]
      ensures analog == old(analog) && series == old(series) && maxChannel == old(maxChannel)
      ensures versionLegacy == old(versionLegacy) && Wire() == old(Wire()) && Fixed() == old(Fixed())
    {
      all := all + ["POD1", "POD2"];
    }

    /** MXR: the five extensions of the full list, in the order the constructor makes them. */
    method AddMxrChannels()
      modifies this
      ensures all == old(all) + Numbered("DIFF", 1, maxChannel) + Numbered("COMM", 1, maxChannel)
                   + Numbered("FUNC", 1, 16) + ["HIST"] + Numbered("WMEM", 1, 8)
                   + Numbered("BUS", 1, 4) + ["POD1", "POD2", "PODALL"]
      ensures analog == old(analog) && series == old(series) && maxChannel == old(maxChannel)
      ensures versionLegacy == old(versionLegacy) && Wire() == old(Wire()) && Fixed() == old(Fixed())
    {
      all := all + Numbered("DIFF", 1, maxChannel);
      all := all + Numbered("COMM", 1, maxChannel);
      all := all + Numbered("FUNC", 1, 16);
      all := all + ["HIST"];
      all := all + Numbered("WMEM", 1, 8);
      all := all + Numbered("BUS", 1, 4) + ["POD1", "POD2"] + ["PODALL"];
    }

    /**
     * The session getBestClass builds for a class: the base constructor with
     * the class's channel count, then each constructor of the chain in turn.
     */
    constructor Build(tag: ClassTag, script: seq<Reply>)
      requires ProfileOf(tag).Some?
      ensures Has(ProfileOf(tag).value)
      ensures Wire() == Link(script, [], true) && prefix == ":" && readStrip == "\n"
      ensures version == InitialVersion && channel == IntChannel(1)
    {
      var n := ProfileOf(tag).value.maxChannel;
      prefix := ":";
      readStrip := "\n";
      replies := script;
      log := [];
      legacyError := true;
      version := InitialVersion;
      versionLegacy := InitialThreshold;
      manufacturer := "";
      model := "";
      serial := "";
      channel := IntChannel(1);
      maxChannel := n;
      analog := AnalogNames(n);
      all := analog + ["POD1", "POD2"];
      series := "GENERIC";
      annotationText := "";
      annotationColor := "";
      new;
      Specialise(tag);
    }

    /** The constructors after the base one: Keysight's, then the class's own chain. */
    method Specialise(tag: ClassTag)
      requires ProfileOf(tag).Some? && maxChannel == ProfileOf(tag).value.maxChannel
      modifies this
      ensures Has(ProfileOf(tag).value)
      ensures Wire() == old(Wire()) && Fixed() == old(Fixed())
    {
      InitKeysight();
      match tag {
        case DSOX | DSOX3xx2A | DSOX3xx4A | DSOX3xx2T | DSOX3xx4T => DsoxChain(tag);
        case MSOX | MSOX3xx2A | MSOX3xx4A | MSOX3xx2T | MSOX3xx4T => MsoxChain(tag);
        case MXR | MXRxx8A | MXRxx4A | EXR | EXRxx8A | EXRxx4A => MxrChain(tag);
        case _ =>
      }
    }

    /** The DSOX constructor, then the DSOX3000A/T one where the class has it. */
    method DsoxChain(tag: ClassTag)
      requires tag.DSOX? || tag.DSOX3xx2A? || tag.DSOX3xx4A? || tag.DSOX3xx2T? || tag.DSOX3xx4T?
      requires Has(KeysightProfile(maxChannel)) && maxChannel == ProfileOf(tag).value.maxChannel
      modifies this
      ensures Has(ProfileOf(tag).value) && Wire() == old(Wire()) && Fixed() == old(Fixed())
    {
      series := "DSOX";
      match tag {
        case DSOX3xx2A | DSOX3xx4A => series := "DSOX3";
        case DSOX3xx2T | DSOX3xx4T => series := "DSOX3T"; versionLegacy := Level(9.999);
        case _ =>
      }
    }

    /** The MSOX constructor (DSOX's, then the pods), then the MSOX3000A/T one where the class has it. */
    method MsoxChain(tag: ClassTag)
      requires tag.MSOX? || tag.MSOX3xx2A? || tag.MSOX3xx4A? || tag.MSOX3xx2T? || tag.MSOX3xx4T?
      requires Has(KeysightProfile(maxChannel)) && maxChannel == ProfileOf(tag).value.maxChannel
      modifies this
      ensures Has(ProfileOf(tag).value) && Wire() == old(Wire()) && Fixed() == old(Fixed())
    {
      series := "DSOX";
      AddPods();
      series := "MSOX";
      match tag {
        case MSOX3xx2A | MSOX3xx4A => series := "MSOX3";
        case MSOX3xx2T | MSOX3xx4T => series := "MSOX3T"; versionLegacy := Level(9.999);
        case _ =>
      }
    }

    /** The MXR constructor, then the EXR one where the class has it. */
    method MxrChain(tag: ClassTag)
      requires tag.MXR? || tag.MXRxx8A? || tag.MXRxx4A? || tag.EXR? || tag.EXRxx8A? || tag.EXRxx4A?
      requires Has(KeysightProfile(maxChannel)) && maxChannel == ProfileOf(tag).value.maxChannel
      modifies this
      ensures Has(ProfileOf(tag).value) && Wire() == old(Wire()) && Fixed() == old(Fixed())
    {
      AddMxrChannels();
      series := "MXR";
      if tag.EXR? || tag.EXRxx8A? || tag.EXRxx4A? {
        series := "EXR";
      }
    }

    /** checkInstErrors: the entry form, then the bounded drain loop. */
    method CheckInstErrors() returns (r: Result<bool>)
      modifies this`replies, this`log, this`legacyError
      ensures Settings() == old(Settings())
      ensures (r, Wire()) == DrainSpec(old(Wire()), Settings())
    {
      var entry := EntryForm(legacyError, version, versionLegacy);
      if entry.Err? {
        return Err(entry.error);
      }
      var errors, w := DrainReads(entry.value, replies, log, prefix, readStrip);
      replies, log, legacyError := w.replies, w.log, w.legacyError;
      r := Ok(errors);
    }

    /** The transport call under _instQuery and _instWrite, with the error check. */
    method Call(cmd: string, checkErrors: bool) returns (r: Result<Reply>)
      modifies this`replies, this`log, this`legacyError
      ensures Settings() == old(Settings())
      ensures (r, Wire()) == CallSpec(old(Wire()), old(Settings()), cmd, checkErrors)
    {
      if cmd == [] {
        return Err(IndexError);
      }
      var wire := if cmd[0] == '*' then cmd else prefix + cmd;
      log := log + [wire];
      var reply := Head(replies);
      replies := Tail(replies);
      if checkErrors {
        var e := CheckInstErrors();
        if e.Err? {
          return Err(e.error);
        }
      }
      r := Ok(reply);
    }

    /** _instWrite. */
    method Write(cmd: string, checkErrors: bool) returns (r: Result<()>)
      modifies this`replies, this`log, this`legacyError
      ensures Settings() == old(Settings())
      ensures var (c, w) := CallSpec(old(Wire()), old(Settings()), cmd, checkErrors);
        Wire() == w && r == (if c.Err? then Err(c.error) else WriteOutcome(c.value))
    {
      var c := Call(cmd, checkErrors);
      if c.Err? {
        return Err(c.error);
      }
      r := WriteOutcome(c.value);
    }

    /** _instQuery: the reply text with trailing read_strip characters removed. */
    method Query(cmd: string, checkErrors: bool) returns (r: Result<string>)
      modifies this`replies, this`log, this`legacyError
      ensures Settings() == old(Settings())
      ensures var (c, w) := CallSpec(old(Wire()), old(Settings()), cmd, checkErrors);
        Wire() == w && r == QueryText(c, readStrip)
    {
      var c := Call(cmd, checkErrors);
      if c.Err? {
        return Err(c.error);
      }
      var t := TextOf(c.value);
      if t.Err? {
        return Err(t.error);
      }
      r := Ok(StripReply(readStrip, t.value));
    }

    /** _instQueryNumber: float() of the reply. */
    method QueryNumber(cmd: string) returns (r: Result<real>)
      modifies this`replies, this`log, this`legacyError
      ensures Settings() == old(Settings())
      ensures var (c, w) := CallSpec(old(Wire()), old(Settings()), cmd, true);
        Wire() == w
        && (r.Ok? <==> c.Ok? && c.value.Answer? && ParseFloat(StripReply(readStrip, c.value.text)).Some?)
        && (r.Ok? ==> Some(r.value) == ParseFloat(StripReply(readStrip, c.value.text)))
    {
      var t := Query(cmd, true);
      if t.Err? {
        return Err(t.error);
      }
      var x := ParseFloat(t.value);
      if x.None? {
        return Err(ValueError);
      }
      r := Ok(x.value);
    }

    /** _instQueryIEEEBlock: the block's bytes, or process exit on a transport error. */
    method QueryBlock(cmd: string) returns (r: Result<seq<byte>>)
      modifies this`replies, this`log, this`legacyError
      ensures Settings() == old(Settings())
      ensures var (c, w) := CallSpec(old(Wire()), old(Settings()), cmd, true);
        Wire() == w && r == (if c.Err? then Err(c.error) else BlockOutcome(c.value))
    {
      var c := Call(cmd, true);
      if c.Err? {
        return Err(c.error);
      }
      r := BlockOutcome(c.value);
    }

    /** _instQueryNumbers: the comma-separated numbers, or process exit on a transport error. */
    method QueryNumbers(cmd: string) returns (r: Result<seq<real>>)
      modifies this`replies, this`log, this`legacyError
      ensures Settings() == old(Settings())
      ensures var (c, w) := CallSpec(old(Wire()), old(Settings()), cmd, true);
        Wire() == w && r == (if c.Err? then Err(c.error) else NumbersOutcome(c.value))
    {
      var c := Call(cmd, true);
      if c.Err? {
        return Err(c.error);
      }
      r := NumbersOutcome(c.value);
    }

    /**
     * _getID: *IDN? without error check, split on ','. The fields are stored
     * one by one, so a short reply leaves the earlier ones stored before its
     * IndexError; a tuple version also installs the empty threshold.
     */
    method GetID() returns (r: Result<()>)
      modifies this`replies, this`log, this`legacyError, this`manufacturer, this`model, this`serial, this`version, this`versionLegacy
      ensures var (c, w) := CallSpec(old(Wire()), old(Settings()), "*IDN?", false);
        var text := QueryText(c, old(readStrip));
        Wire() == w
        && (text.Err? ==> r == Err(text.error) && Settings() == old(Settings()))
        && (text.Ok? ==> Settings() == IdnAssigned(old(Settings()), text.value)
                         && r == (if ParseIdn(text.value).Ok? then Ok(()) else Err(IndexError)))
      ensures log == old(log) + ["*IDN?"]
    {
      var reply := Query("*IDN?", false);
      if reply.Err? {
        return Err(reply.error);
      }
      r := StoreIdn(Split(reply.value, ','));
    }

    /** The stores of _getID, field by field, with IndexError at the first missing one. */
    method StoreIdn(idn: seq<string>) returns (r: Result<()>)
      requires |idn| >= 1
      modifies this`manufacturer, this`model, this`serial, this`version, this`versionLegacy
      ensures Settings() == IdnFields(old(Settings()), idn)
      ensures r == if |idn| >= 4 then Ok(()) else Err(IndexError)
    {
      manufacturer := idn[0];
      if |idn| >= 2 {
        model := idn[1];
      }
      if |idn| >= 3 {
        serial := idn[2];
      }
      if |idn| < 4 {
        return Err(IndexError);
      }
      var v := ParseVersion(idn[3]);
      version := v;
      if v.Parts? {
        versionLegacy := EmptyTuple;
      }
      r := Ok(());
    }

    /**
     * open(): the identity, then *CLS with error check. A failed _getID ends it
     * before *CLS is sent; otherwise *CLS runs on the identity just stored, and its
     * drain decides the result.
     */
    method Open() returns (r: Result<()>)
      modifies this`replies, this`log, this`legacyError, this`manufacturer, this`model, this`serial, this`version, this`versionLegacy
      ensures var (c, w1) := CallSpec(old(Wire()), old(Settings()), "*IDN?", false);
        var text := QueryText(c, old(readStrip));
        Settings() == (if text.Ok? then IdnAssigned(old(Settings()), text.value) else old(Settings()))
      ensures var (c, w1) := CallSpec(old(Wire()), old(Settings()), "*IDN?", false);
        var text := QueryText(c, old(readStrip));
        var identified := text.Ok? && ParseIdn(text.value).Ok?;
        (!identified ==> Wire() == w1 && r == (if text.Err? then Err(text.error) else Err(IndexError)))
        && (identified ==> var (c2, w2) := CallSpec(w1, Settings(), "*CLS", true);
              Wire() == w2 && r == (if c2.Err? then Err(c2.error) else WriteOutcome(c2.value)))
      ensures r.Ok? ==> |log| >= |old(log)| + 2 && log[..|old(log)| + 2] == old(log) + ["*IDN?", "*CLS"]
      ensures r.Ok? ==> var t := QueryText(Ok(Head(old(replies))), old(readStrip)); t.Ok? && ParseIdn(t.value).Ok?
    {
      ghost var log0 := log;
      var id := GetID();
      if id.Err? {
        return id;
      }
      ghost var w1 := Wire();
      r := Write("*CLS", true);
      if r.Ok? {
        CallLogs(w1, Settings(), "*CLS", true);
        assert log[..|log0| + 2] == log0 + ["*IDN?", "*CLS"];
      }
    }

    /** One call of a download through the wrapper its kind names. */
    method Perform(a: Ask) returns (r: Result<Answer>)
      modifies this`replies, this`log, this`legacyError
      ensures Settings() == old(Settings())
      ensures var (c, w) := CallSpec(old(Wire()), old(Settings()), a.cmd, true);
        Wire() == w && r == Outcome(a, c, readStrip)
    {
      match a {
        case Send(cmd) =>
          var x := Write(cmd, true);
          r := if x.Err? then Err(x.error) else Ok(Done);
        case AskText(cmd) =>
          var t := Query(cmd, true);
          r := if t.Err? then Err(t.error) else Ok(Said(t.value));
        case AskBlock(cmd) =>
          var b := QueryBlock(cmd);
          r := if b.Err? then Err(b.error) else Ok(Bytes(b.value));
        case AskNumbers(cmd) =>
          var n := QueryNumbers(cmd);
          r := if n.Err? then Err(n.error) else Ok(Values(n.value));
      }
    }

    /** The calls in order, up to the first that fails. */
    method Converse(asks: seq<Ask>) returns (r: Result<seq<Answer>>)
      modifies this`replies, this`log, this`legacyError
      ensures Settings() == old(Settings())
      ensures (r, Wire()) == Exchange(old(Wire()), old(Settings()), asks)
      decreases |asks|
    {
      if asks == [] {
        return Ok([]);
      }
      var o := Perform(asks[0]);
      if o.Err? {
        return Err(o.error);
      }
      var rest := Converse(asks[1..]);
      if rest.Err? {
        return Err(rest.error);
      }
      r := Ok([o.value] + rest.value);
    }

    /** _waveformDataNew. */
    method ModernDownload(source: string, points: Option<int>, order: ByteOrder) returns (r: Result<Trace>)
      modifies this`replies, this`log, this`legacyError
      ensures (r, Wire()) == ModernSpec(old(Wire()), old(Settings()), source, points, order)
    {
      var a := Converse(ModernSetup(source, order));
      if a.Err? {
        return Err(a.error);
      }
      r := ReadModern(source, points, order, a.value[1].text, a.value[2].text, a.value[5].text);
    }

    /** _waveformDataNew from the preamble reply on. */
    method ReadModern(source: string, points: Option<int>, order: ByteOrder, sourceReply: string,
                      view: string, preamble: string) returns (r: Result<Trace>)
      modifies this`replies, this`log, this`legacyError
      ensures (r, Wire()) == ModernRead(old(Wire()), old(Settings()), source, points, order, sourceReply, view, preamble)
    {
      var plan := PlanModern(source, points, sourceReply, view, preamble);
      if plan.Err? {
        return Err(plan.error);
      }
      var b := Converse(ModernFetch(plan.value.window.suffix));
      if b.Err? {
        return Err(b.error);
      }
      r := DecodeModern(source, plan.value.window.start, plan.value.preamble, plan.value.meta, b.value[1].bytes, order);
    }

    /** _waveformDataLegacy. */
    method LegacyDownload(source: string, points: Option<int>) returns (r: Result<Trace>)
      modifies this`replies, this`log, this`legacyError
      ensures (r, Wire()) == LegacySpec(old(Wire()), old(Settings()), source, points)
    {
      var setup := LegacySetup(source, points);
      var a := Converse(setup);
      if a.Err? {
        return Err(a.error);
      }
      r := ReadLegacy(source, a.value[1].text, a.value[2].text, a.value[6].text, a.value[|setup| - 1].text);
    }

    /** _waveformDataLegacy from the points reply on. */
    method ReadLegacy(source: string, sourceReply: string, view: string, mode: string, pointsReply: string)
      returns (r: Result<Trace>)
      modifies this`replies, this`log, this`legacyError
      ensures (r, Wire()) == LegacyRead(old(Wire()), old(Settings()), source, sourceReply, view, mode, pointsReply)
    {
      var available := ParseInt(pointsReply);
      if available.None? {
        return Err(ValueError);
      }
      var n := Converse([AskNumbers("WAVeform:PREamble?")]);
      if n.Err? {
        return Err(n.error);
      }
      var parsed := ParseLegacyPreamble(n.value[0].values, sourceReply, view, mode, available.value);
      if parsed.Err? {
        return Err(parsed.error);
      }
      var b := Converse([AskBlock("WAVeform:DATA?")]);
      if b.Err? {
        return Err(b.error);
      }
      r := DecodeLegacy(source, parsed.value.0, parsed.value.1, b.value[0].bytes);
    }

    /**
     * waveformData: a channel given (and not a list) becomes the current one;
     * the checks come before any transport call; the version then picks the
     * decoder.
     */
    method WaveformData(given: Channel, points: Option<int>, order: ByteOrder) returns (r: Result<Trace>)
      modifies this`replies, this`log, this`legacyError, this`channel
      ensures channel == NewCurrent(old(channel), given)
      ensures Settings() == old(Settings()).(channel := channel)
      ensures (r, Wire()) == WaveformSpec(old(Wire()), old(Settings()), given, points, order)
    {
      if !given.NoChannel? && !given.ListChannel? {
        channel := given;
      }
      if channel.ListChannel? || given.ListChannel? {
        return Err(ValueError);
      }
      if !channel.StrChannel? || channel.s !in all {
        return Err(ValueError);
      }
      r := Download(channel.s, points, order);
    }

    /** The dispatch at the end of waveformData. */
    method Download(source: string, points: Option<int>, order: ByteOrder) returns (r: Result<Trace>)
      modifies this`replies, this`log, this`legacyError
      ensures (r, Wire()) == DownloadSpec(old(Wire()), old(Settings()), source, points, order)
    {
      var modern := Newer(version, versionLegacy);
      if modern.Err? {
        return Err(modern.error);
      }
      if modern.value {
        r := ModernDownload(source, points, order);
      } else {
        r := LegacyDownload(source, points);
      }
    }
  }
}
