/** The renderer of one VM window: the `HH:MM:SS` uptime display, the
    single uptime timer kept in step with the status, the command box and
    cleanup. */
module VmRenderer {
  import opened Common

  // ---------------------------------------------------------------------
  // Uptime arithmetic
  // ---------------------------------------------------------------------

  datatype Clock = Clock(hours: nat, minutes: nat, seconds: nat)

  /** The milliseconds a clock reading stands for. */
  function Millis(c: Clock): nat
  {
    c.hours * 3600000 + c.minutes * 60000 + c.seconds * 1000
  }

  /** A reading whose minutes and seconds are below 60. */
  predicate Normal(c: Clock)
  {
    c.minutes < 60 && c.seconds < 60
  }

  /** A larger multiplier gives a product at least one `k` larger. */
  lemma MulStep(a: nat, b: nat, k: nat)
    requires a < b
    ensures a * k + k <= b * k
  {
    var d := b - a;
    assert b * k == a * k + d * k;
    assert d * k == (d - 1) * k + k;
  }

  /** `(q * k + r) / k == q` and `(q * k + r) % k == r` for `r < k`. */
  lemma DivModUnique(n: nat, k: nat, q: nat, r: nat)
    requires 0 < k && r < k && n == q * k + r
    ensures n / k == q && n % k == r
  {
    var q', r' := n / k, n % k;
    assert n == q' * k + r';
    if q' < q {
      MulStep(q', q, k);
    } else if q < q' {
      MulStep(q, q', k);
    }
  }

  /** The split of `updateUptime`: whole hours, then the minutes and the
      seconds left over; the reading is normal and falls short of `diff`
      by less than a second. */
  function SplitUptime(diff: nat): (c: Clock)
    ensures Normal(c)
    ensures Millis(c) <= diff < Millis(c) + 1000
  {
    var hours := diff / 3600000;
    var minutes := (diff % 3600000) / 60000;
    var seconds := (diff % 60000) / 1000;
    var sub := (diff % 3600000) % 60000;
    assert diff % 3600000 == minutes * 60000 + sub;
    DivModUnique(diff, 60000, hours * 60 + minutes, sub);
    Clock(hours, minutes, seconds)
  }

  /** The split is the only normal reading within a second below `diff`. */
  lemma SplitUptimeUnique(diff: nat, c: Clock)
    requires Normal(c) && Millis(c) <= diff < Millis(c) + 1000
    ensures c == SplitUptime(diff)
  {
    var e := diff - Millis(c);
    var inMinute := c.seconds * 1000 + e;
    var inHour := c.minutes * 60000 + inMinute;
    DivModUnique(diff, 3600000, c.hours, inHour);
    DivModUnique(inHour, 60000, c.minutes, inMinute);
    DivModUnique(diff, 60000, c.hours * 60 + c.minutes, inMinute);
    DivModUnique(inMinute, 1000, c.seconds, e);
  }

  // ---------------------------------------------------------------------
  // Number formatting: `toString()` and `padStart(2, '0')`
  // ---------------------------------------------------------------------

  predicate IsDigit(ch: char)
  {
    '0' <= ch <= '9'
  }

  predicate AllDigits(s: string)
  {
    forall i :: 0 <= i < |s| ==> IsDigit(s[i])
  }

  function DigitChar(d: nat): (ch: char)
    requires d < 10
    ensures IsDigit(ch)
  {
    ['0', '1', '2', '3', '4', '5', '6', '7', '8', '9'][d]
  }

  function DigitValue(ch: char): nat
    requires IsDigit(ch)
  {
    (ch as int - '0' as int) as nat
  }

  /** The decimal numeral of a whole number, as `Number.prototype.toString`
      writes it: digits only, at least one, no leading zero. */
  function Digits(n: nat): (s: string)
    ensures 1 <= |s| && AllDigits(s)
    ensures |s| == 1 <==> n < 10
    ensures |s| > 1 ==> s[0] != '0'
    decreases n
  {
    if n < 10 then [DigitChar(n)] else Digits(n / 10) + [DigitChar(n % 10)]
  }

  /** The number a string of decimal digits denotes; the reference reading
      of a numeral. */
  function Value(s: string): nat
    requires AllDigits(s)
  {
    if s == [] then 0 else Value(s[..|s| - 1]) * 10 + DigitValue(s[|s| - 1])
  }

  lemma DigitCharValue(d: nat)
    requires d < 10
    ensures DigitValue(DigitChar(d)) == d
  {
  }

  /** Reading a numeral back gives the number: `toString` loses nothing. */
  lemma {:induction false} ValueOfDigits(n: nat)
    ensures Value(Digits(n)) == n
    decreases n
  {
    var s := Digits(n);
    DigitCharValue(n % 10);
    if n >= 10 {
      ValueOfDigits(n / 10);
      assert s[..|s| - 1] == Digits(n / 10);
    } else {
      assert s[..|s| - 1] == [];
    }
  }

  /** A leading zero does not change the value of a numeral. */
  lemma {:induction false} ValueLeadingZero(s: string)
    requires AllDigits(s)
    ensures AllDigits(['0'] + s) && Value(['0'] + s) == Value(s)
    decreases |s|
  {
    var t := ['0'] + s;
    if s != [] {
      assert t[..|t| - 1] == ['0'] + s[..|s| - 1];
      ValueLeadingZero(s[..|s| - 1]);
    } else {
      assert t[..|t| - 1] == [];
    }
  }

  /** `s.padStart(width, fill)` with a one-character filler: the string
      itself when long enough, otherwise filled on the left up to `width`. */
  function PadStart(s: string, width: nat, fill: char): (r: string)
    ensures |r| == if |s| >= width then |s| else width
    ensures r[|r| - |s|..] == s
    ensures forall i :: 0 <= i < |r| - |s| ==> r[i] == fill
    decreases width - |s|
  {
    if |s| >= width then s else PadStart([fill] + s, width, fill)
  }

  /** One field of the display, `String(n).padStart(2, '0')`: the numeral,
      with a `0` in front when it has a single digit. */
  function Field(n: nat): (s: string)
    ensures AllDigits(s) && |s| >= 2
    ensures n < 100 ==> |s| == 2
  {
    var d := Digits(n);
    if |d| >= 2 then d else ['0'] + d
  }

  /** `Field` is `padStart(2, '0')` applied to `toString()`. */
  lemma FieldIsPadStart(n: nat)
    ensures Field(n) == PadStart(Digits(n), 2, '0')
  {
    var d := Digits(n);
    if |d| < 2 {
      assert PadStart(d, 2, '0') == PadStart(['0'] + d, 2, '0');
    }
  }

  lemma ValueOfField(n: nat)
    ensures Value(Field(n)) == n
  {
    var d := Digits(n);
    ValueOfDigits(n);
    if |d| < 2 {
      assert Field(n) == ['0'] + d;
      ValueLeadingZero(d);
    } else {
      assert Field(n) == d;
    }
  }

  /** The display of a clock reading: `HH:MM:SS`, each field padded to two
      digits. */
  function FormatClock(c: Clock): string
  {
    Field(c.hours) + ":" + Field(c.minutes) + ":" + Field(c.seconds)
  }

  /** The text `updateUptime` shows for `diff` milliseconds. */
  function FormatUptime(diff: nat): string
  {
    FormatClock(SplitUptime(diff))
  }

  /** What the uptime display shows at time `now`: the text it had while no
      start time is set, otherwise the time elapsed since the start. */
  function UptimeText(start: Option<nat>, now: nat, current: string): string
    requires start.Some? ==> start.value <= now
  {
    if start.Some? then FormatUptime(now - start.value) else current
  }

  /** Reads an `H..H:MM:SS` display back: the last two fields have exactly
      two digits, the hours field at least two. */
  function ParseClock(t: string): Option<Clock>
  {
    var n := |t|;
    if n >= 8 && t[n - 3] == ':' && t[n - 6] == ':' &&
       AllDigits(t[..n - 6]) && AllDigits(t[n - 5..n - 3]) && AllDigits(t[n - 2..])
    then Some(Clock(Value(t[..n - 6]), Value(t[n - 5..n - 3]), Value(t[n - 2..])))
    else None
  }

  /** Reading back three digit fields joined by colons. */
  lemma ParseFields(h: string, m: string, sec: string)
    requires AllDigits(h) && AllDigits(m) && AllDigits(sec) && |h| >= 2 && |m| == 2 && |sec| == 2
    ensures var t := h + ":" + m + ":" + sec;
            |t| >= 8 && t[|t| - 3] == ':' && t[|t| - 6] == ':'
    ensures ParseClock(h + ":" + m + ":" + sec) == Some(Clock(Value(h), Value(m), Value(sec)))
  {
    var t := h + ":" + m + ":" + sec;
    var n := |t|;
    assert t[n - 3] == ':' && t[n - 6] == ':';
    assert t[..n - 6] == h;
    assert t[n - 5..n - 3] == m;
    assert t[n - 2..] == sec;
    assert AllDigits(t[..n - 6]) && AllDigits(t[n - 5..n - 3]) && AllDigits(t[n - 2..]);
    assert ParseClock(t) == Some(Clock(Value(t[..n - 6]), Value(t[n - 5..n - 3]), Value(t[n - 2..])));
    assert ParseClock(t) == Some(Clock(Value(h), Value(m), Value(sec)));
  }

  /** A normal reading's display has the shape `HH:MM:SS` with two-digit
      minutes and seconds, and reading it back gives the reading. */
  lemma FormatClockRoundTrip(c: Clock)
    requires Normal(c)
    ensures var t := FormatClock(c);
            |t| >= 8 && t[|t| - 3] == ':' && t[|t| - 6] == ':'
    ensures ParseClock(FormatClock(c)) == Some(c)
  {
    var h, m, sec := Field(c.hours), Field(c.minutes), Field(c.seconds);
    ParseFields(h, m, sec);
    ValueOfField(c.hours);
    ValueOfField(c.minutes);
    ValueOfField(c.seconds);
  }

  /** The uptime display has the shape `HH:MM:SS` and reading it back
      recovers the split exactly. */
  lemma FormatUptimeRoundTrip(diff: nat)
    ensures var t := FormatUptime(diff);
            |t| >= 8 && t[|t| - 3] == ':' && t[|t| - 6] == ':'
    ensures ParseClock(FormatUptime(diff)) == Some(SplitUptime(diff))
  {
    FormatClockRoundTrip(SplitUptime(diff));
  }

  /** The whole seconds a split stands for are the whole seconds of `d`. */
  lemma SecondOf(d: nat)
    ensures var c := SplitUptime(d);
            d / 1000 == c.hours * 3600 + c.minutes * 60 + c.seconds
  {
    var c := SplitUptime(d);
    var k := c.hours * 3600 + c.minutes * 60 + c.seconds;
    assert Millis(c) == k * 1000;
    DivModUnique(d, 1000, k, d - Millis(c));
  }

  /** Two durations show the same text exactly when they lie in the same
      whole second. */
  lemma FormatUptimeSameSecond(d1: nat, d2: nat)
    ensures FormatUptime(d1) == FormatUptime(d2) <==> d1 / 1000 == d2 / 1000
  {
    var c1, c2 := SplitUptime(d1), SplitUptime(d2);
    SecondOf(d1);
    SecondOf(d2);
    if FormatUptime(d1) == FormatUptime(d2) {
      FormatUptimeRoundTrip(d1);
      FormatUptimeRoundTrip(d2);
      assert c1 == c2;
    }
    if d1 / 1000 == d2 / 1000 {
      assert Millis(c1) == Millis(c2);
      SplitUptimeUnique(d2, c1);
      assert c1 == c2;
    }
  }

  // ---------------------------------------------------------------------
  // `String.prototype.trim`
  // ---------------------------------------------------------------------

  /** The characters ECMAScript's `trim` removes: WhiteSpace and
      LineTerminator. */
  predicate IsJsWhitespace(ch: char)
  {
    ch == '\t' || ch == '\U{B}' || ch == '\U{C}' || ch == ' ' || ch == '\U{A0}' || ch == '\U{FEFF}' ||
    ch == '\n' || ch == '\r' || ch == '\U{2028}' || ch == '\U{2029}' ||
    ch == '\U{1680}' || ('\U{2000}' <= ch <= '\U{200A}') || ch == '\U{202F}' || ch == '\U{205F}' ||
    ch == '\U{3000}'
  }

  predicate AllWhitespace(s: string)
  {
    forall i :: 0 <= i < |s| ==> IsJsWhitespace(s[i])
  }

  /** `s` without its leading whitespace. */
  function TrimStart(s: string): (r: string)
    ensures |r| <= |s| && r == s[|s| - |r|..]
    ensures forall k :: 0 <= k < |s| - |r| ==> IsJsWhitespace(s[k])
    ensures r != [] ==> !IsJsWhitespace(r[0])
  {
    if s != [] && IsJsWhitespace(s[0]) then
      var r := TrimStart(s[1..]);
      assert forall k :: 1 <= k < |s| - |r| ==> s[k] == s[1..][k - 1];
      r
    else s
  }

  /** `s` without its trailing whitespace. */
  function TrimEnd(s: string): (r: string)
    ensures |r| <= |s| && r == s[..|r|]
    ensures forall k :: |r| <= k < |s| ==> IsJsWhitespace(s[k])
    ensures r != [] ==> !IsJsWhitespace(r[|r| - 1])
  {
    if s != [] && IsJsWhitespace(s[|s| - 1]) then
      TrimEnd(s[..|s| - 1])
    else s
  }

  /** `trim()`: `s` without its leading and trailing whitespace; it
      neither starts nor ends with whitespace. */
  function Trim(s: string): (r: string)
    ensures |r| <= |s|
    ensures r != [] ==> !IsJsWhitespace(r[0]) && !IsJsWhitespace(r[|r| - 1])
  {
    TrimEnd(TrimStart(s))
  }

  /** What `trim()` leaves is a slice of `s` with only whitespace before
      and after it. */
  lemma TrimSlice(s: string) returns (i: nat, j: nat)
    ensures i <= j <= |s| && Trim(s) == s[i..j]
    ensures forall k :: 0 <= k < i || j <= k < |s| ==> IsJsWhitespace(s[k])
  {
    var a := TrimStart(s);
    var r := TrimEnd(a);
    i := |s| - |a|;
    j := i + |r|;
    assert forall k :: j <= k < |s| ==> s[k] == a[k - i];
  }

  /** The guard of `sendCommand`: the trimmed input is empty exactly when
      the input is whitespace only. */
  lemma TrimEmptyIffWhitespace(s: string)
    ensures Trim(s) == [] <==> AllWhitespace(s)
  {
    var i, j := TrimSlice(s);
    if Trim(s) != [] {
      assert s[i] == Trim(s)[0];
    }
  }

  // ---------------------------------------------------------------------
  // The window
  // ---------------------------------------------------------------------

  /** A `setInterval` handle. */
  type TimerId = nat

  /** The window's `ScrapyPilot`; its own code is not part of this model. */
  datatype PilotHandle = PilotHandle(serial: nat)

  /** The calls the window makes on its pilot. */
  datatype PilotCall = InitCall(p: PilotHandle) | ActCall(p: PilotHandle, prompt: string) | CleanupCall(p: PilotHandle)

  /** What `pilot.init()` does: reject, or resolve with a stream URL (empty
      when none came back). */
  datatype InitOutcome = InitRejects | InitResolves(url: string)

  /** The console lines the window appends. */
  datatype ConsoleLine =
    | StreamUrlLine(url: string)    // "noVNC Viewer URL: ..."
    | InitErrorLine                 // "Error: ..."
    | CommandLine(command: string)  // "> ..."
    | CommandSucceeded
    | CommandFailed

  class VMInstanceWindow {
    var vmId: string
    var status: string
    /** The time `initializeInstance` succeeded, in milliseconds. */
    var startTime: Option<nat>
    var uptimeInterval: Option<TimerId>
    var uptimeText: string
    var commandInput: string
    var console: seq<ConsoleLine>
    var pilot: Option<PilotHandle>
    var nextTimer: TimerId
    var nextPilot: nat
    /** The intervals installed and not yet cleared. */
    ghost var liveTimers: set<TimerId>
    var pilotCalls: seq<PilotCall>

    /** The field holds the one live interval, or none is live: no timer is
        ever lost track of. */
    ghost predicate Valid()
      reads this
    {
      liveTimers == (if uptimeInterval.Some? then {uptimeInterval.value} else {}) &&
      (uptimeInterval.Some? ==> uptimeInterval.value < nextTimer)
    }

    constructor ()
      ensures Valid() && vmId == "" && status == "initializing" && startTime.None?
      ensures uptimeInterval.None? && liveTimers == {} && pilot.None? && commandInput == ""
      ensures console == [] && pilotCalls == [] && nextPilot == 0
    {
      vmId := "";
      status := "initializing";
      startTime := None;
      uptimeInterval := None;
      uptimeText := "";
      commandInput := "";
      console := [];
      pilot := None;
      nextTimer, nextPilot := 1, 0;
      liveTimers := {};
      pilotCalls := [];
    }

    method SetInterval() returns (t: TimerId)
      modifies this`nextTimer, this`liveTimers
      ensures t == old(nextTimer) && nextTimer == t + 1 && liveTimers == old(liveTimers) + {t}
    {
      t := nextTimer;
      nextTimer := nextTimer + 1;
      liveTimers := liveTimers + {t};
    }

    method ClearInterval(t: TimerId)
      modifies this`liveTimers
      ensures liveTimers == old(liveTimers) - {t}
    {
      liveTimers := liveTimers - {t};
    }

    /** `startUptimeCounter`: clear the interval there is, then install a
        new one; exactly one is live afterwards. */
    method StartUptimeCounter()
      requires Valid()
      modifies this`uptimeInterval, this`nextTimer, this`liveTimers
      ensures Valid()
      ensures uptimeInterval == Some(old(nextTimer)) && liveTimers == {old(nextTimer)}
      ensures old(uptimeInterval).Some? ==> old(uptimeInterval).value !in liveTimers
    {
      if uptimeInterval.Some? {
        ClearInterval(uptimeInterval.value);
      }
      var t := SetInterval();
      uptimeInterval := Some(t);
    }

    /** `updateStatus`: record the status; 'stopped' and 'error' clear the
        interval, 'running' starts one when there is none, any other status
        leaves it alone. */
    method UpdateStatus(newStatus: string)
      requires Valid()
      modifies this`status, this`uptimeInterval, this`nextTimer, this`liveTimers
      ensures Valid() && status == newStatus
      ensures newStatus == "stopped" || newStatus == "error" ==>
                uptimeInterval.None? && liveTimers == {} && nextTimer == old(nextTimer)
      ensures newStatus == "running" && old(uptimeInterval).None? ==>
                uptimeInterval == Some(old(nextTimer)) && liveTimers == {old(nextTimer)}
      ensures newStatus == "running" && old(uptimeInterval).Some? ==>
                uptimeInterval == old(uptimeInterval) && liveTimers == old(liveTimers)
      ensures newStatus != "stopped" && newStatus != "error" && newStatus != "running" ==>
                uptimeInterval == old(uptimeInterval) && liveTimers == old(liveTimers)
    {
      status := newStatus;
      if newStatus == "stopped" || newStatus == "error" {
        if uptimeInterval.Some? {
          ClearInterval(uptimeInterval.value);
          uptimeInterval := None;
        }
      } else if newStatus == "running" && uptimeInterval.None? {
        StartUptimeCounter();
      }
    }

    /** `updateUptime` at time `now`: nothing before a start time is set,
        otherwise the elapsed time in `HH:MM:SS`. */
    method UpdateUptime(now: nat)
      requires startTime.Some? ==> startTime.value <= now
      modifies this`uptimeText
      ensures uptimeText == UptimeText(old(startTime), now, old(uptimeText))
    {
      uptimeText := UptimeText(startTime, now, uptimeText);
    }

    /** `initializeInstance`: bind a new pilot, await its `init`; a rejection
        or an empty URL sets status 'error' (the pilot stays bound);
        otherwise log the URL, set 'running', stamp the start time and
        restart the counter. */
    method InitializeInstance(init: InitOutcome, now: nat) returns (ok: bool)
      requires Valid()
      modifies this
      ensures Valid()
      ensures ok <==> init.InitResolves? && init.url != ""
      ensures pilot == Some(PilotHandle(old(nextPilot))) && nextPilot == old(nextPilot) + 1
      ensures pilotCalls == old(pilotCalls) + [InitCall(PilotHandle(old(nextPilot)))]
      ensures ok ==> status == "running" && startTime == Some(now) && uptimeInterval.Some? &&
                     console == old(console) + [StreamUrlLine(init.url)]
      ensures !ok ==> status == "error" && startTime == old(startTime) && uptimeInterval.None? &&
                      console == old(console) + [InitErrorLine]
      ensures vmId == old(vmId) && commandInput == old(commandInput) && uptimeText == old(uptimeText)
    {
      var p := PilotHandle(nextPilot);
      nextPilot := nextPilot + 1;
      pilot := Some(p);
      pilotCalls := pilotCalls + [InitCall(p)];
      if init.InitRejects? || init.url == "" {
        UpdateStatus("error");
        console := console + [InitErrorLine];
        return false;
      }
      console := console + [StreamUrlLine(init.url)];
      UpdateStatus("running");
      startTime := Some(now);
      StartUptimeCounter();
      ok := true;
    }

    /** The 'vm-id' message: record the id and initialize; a failure sets
        'error' once more. */
    method HandleVmId(id: string, init: InitOutcome, now: nat)
      requires Valid()
      modifies this
      ensures Valid() && vmId == id
      ensures pilot == Some(PilotHandle(old(nextPilot)))
      ensures status == if init.InitResolves? && init.url != "" then "running" else "error"
      ensures status == "running" <==> uptimeInterval.Some?
      ensures nextPilot == old(nextPilot) + 1 && pilotCalls == old(pilotCalls) + [InitCall(PilotHandle(old(nextPilot)))]
      ensures init.InitResolves? && init.url != "" ==>
                startTime == Some(now) && console == old(console) + [StreamUrlLine(init.url)]
      ensures !(init.InitResolves? && init.url != "") ==>
                startTime == old(startTime) && console == old(console) + [InitErrorLine]
      ensures commandInput == old(commandInput) && uptimeText == old(uptimeText)
    {
      vmId := id;
      var ok := InitializeInstance(init, now);
      if !ok {
        UpdateStatus("error");
      }
    }

    /** `sendCommand`: an input that trims to nothing is left as it is and
        nothing happens; otherwise the trimmed command is echoed, handed to
        the pilot when there is one (its `act` resolves at once, as it
        awaits nothing) or reported as failed, and the input is cleared. */
    method SendCommand()
      modifies this`commandInput, this`console, this`pilotCalls
      ensures AllWhitespace(old(commandInput)) ==>
                commandInput == old(commandInput) && console == old(console) && pilotCalls == old(pilotCalls)
      ensures !AllWhitespace(old(commandInput)) ==>
                var c := Trim(old(commandInput));
                c != [] && commandInput == "" &&
                pilotCalls == old(pilotCalls) + (if pilot.Some? then [ActCall(pilot.value, c)] else []) &&
                console == old(console) + [CommandLine(c), if pilot.Some? then CommandSucceeded else CommandFailed]
    {
      var command := Trim(commandInput);
      TrimEmptyIffWhitespace(commandInput);
      if command == [] {
        return;
      }
      console := console + [CommandLine(command)];
      if pilot.Some? {
        pilotCalls := pilotCalls + [ActCall(pilot.value, command)];
        console := console + [CommandSucceeded];
      } else {
        console := console + [CommandFailed];
      }
      commandInput := "";
    }

    /** `cleanup`: the interval is always cleared; with a pilot, await its
        cleanup and then unbind it, reset the id and set 'stopped' (a
        rejection ends the call before those); without one, nothing else. */
    method Cleanup(stop: RemoteOutcome) returns (threw: bool)
      requires Valid()
      modifies this
      ensures Valid() && uptimeInterval.None? && liveTimers == {}
      ensures threw <==> old(pilot).Some? && stop.Rejects?
      ensures pilotCalls == old(pilotCalls) + (if old(pilot).Some? then [CleanupCall(old(pilot).value)] else [])
      ensures old(pilot).Some? && stop.Resolves? ==> pilot.None? && vmId == "" && status == "stopped"
      ensures old(pilot).None? || stop.Rejects? ==>
                pilot == old(pilot) && vmId == old(vmId) && status == old(status)
      ensures console == old(console) && startTime == old(startTime) && commandInput == old(commandInput)
      ensures uptimeText == old(uptimeText) && nextPilot == old(nextPilot) && nextTimer == old(nextTimer)
    {
      if uptimeInterval.Some? {
        ClearInterval(uptimeInterval.value);
        uptimeInterval := None;
      }
      threw := false;
      if pilot.Some? {
        pilotCalls := pilotCalls + [CleanupCall(pilot.value)];
        if stop.Rejects? {
          return true;
        }
        pilot := None;
        vmId := "";
        UpdateStatus("stopped");
      }
    }
  }

  /** The 'beforeunload' listener as written: it cleans up a window made on
      the spot, whose pilot is unset and whose interval is none, and leaves
      the live window alone. */
  method BeforeUnloadAsWritten(live: VMInstanceWindow, stop: RemoteOutcome)
    ensures unchanged(live)
  {
    var vmInstance := new VMInstanceWindow();
    var _ := vmInstance.Cleanup(stop);
  }

  /** The listener as intended: it cleans up the live window. */
  method BeforeUnload(live: VMInstanceWindow, stop: RemoteOutcome)
    requires live.Valid()
    modifies live
    ensures live.Valid() && live.uptimeInterval.None? && live.liveTimers == {}
    ensures old(live.pilot).Some? ==> |live.pilotCalls| > 0 && live.pilotCalls[|live.pilotCalls| - 1] == CleanupCall(old(live.pilot).value)
    ensures stop.Resolves? ==> live.pilot.None?
  {
    var _ := live.Cleanup(stop);
  }

  /** After a successful start, unloading as written leaves the pilot bound,
      its browser never told to stop and the uptime timer running. */
  method UnloadAsWrittenLeaks(now: nat) returns (pilotBound: bool, timerRunning: bool, stopped: bool)
    ensures pilotBound && timerRunning && !stopped
  {
    var live := new VMInstanceWindow();
    var ok := live.InitializeInstance(InitResolves("ws://stream"), now);
    BeforeUnloadAsWritten(live, Resolves);
    pilotBound := live.pilot.Some?;
    timerRunning := live.uptimeInterval.Some?;
    stopped := CleanupCall(PilotHandle(0)) in live.pilotCalls;
  }

  /** The same start followed by the intended unload releases both. */
  method UnloadReleases(now: nat) returns (pilotBound: bool, timerRunning: bool, stopped: bool)
    ensures !pilotBound && !timerRunning && stopped
  {
    var live := new VMInstanceWindow();
    var ok := live.InitializeInstance(InitResolves("ws://stream"), now);
    BeforeUnload(live, Resolves);
    assert live.pilotCalls[|live.pilotCalls| - 1] == CleanupCall(PilotHandle(0));
    pilotBound := live.pilot.Some?;
    timerRunning := live.uptimeInterval.Some?;
    stopped := CleanupCall(PilotHandle(0)) in live.pilotCalls;
  }
}
