/**
 * The alarm monitor of src/alarm_monitor.cpp: a polling loop that reads the
 * controller's alarm byte, reports each fault code once through the alarm
 * callback, and forgets what it reported when the "no alarm" code comes back.
 * The reading and the callback are the environment: a poll takes the value
 * read, and a report appends the description to the list of callbacks sent.
 */
module AlarmMonitor {
  import opened Text
  import opened RegisterImage

  /** The code the controller shows when there is no alarm. */
  const NO_ALARM: uint8 := 16
  /** What `read_alarm_signal` returns when the read fails. */
  const READ_FAILURE: uint8 := 255

  /** `m_alarm_map`, as filled by the constructor. */
  const ALARM_LABELS: map<uint8, string> :=
    map[0 := "油温低", 1 := "油温高", 2 := "液位低", 4 := "液位高", 8 := "滤芯堵", 16 := "无报警"]

  const UNKNOWN_PREFIX := "未知报警(编码:"

  /** `parse_alarm_signal`: the table label, or a generic description carrying the code in decimal. */
  function ParseAlarmSignal(v: uint8): (r: string)
    ensures v in ALARM_LABELS <==> |r| == 3
  {
    if v in ALARM_LABELS then ALARM_LABELS[v]
    else UNKNOWN_PREFIX + NatToString(v as nat) + ")"
  }

  /** A code outside the table is described by text that carries the code, readable back with `stoi`. */
  lemma UnknownCodeReadsBack(v: uint8)
    requires v !in ALARM_LABELS
    ensures exists digits :: ParseAlarmSignal(v) == UNKNOWN_PREFIX + digits + ")" && Stoi(digits) == Parsed(v as int)
  {
    StoiOfNatToString(v as nat);
  }

  /** Different codes are described differently, so a description names its code. */
  lemma ParseAlarmSignalInjective(a: uint8, b: uint8)
    requires ParseAlarmSignal(a) == ParseAlarmSignal(b)
    ensures a == b
  {
    if a !in ALARM_LABELS && b !in ALARM_LABELS {
      var da := NatToString(a as nat);
      var db := NatToString(b as nat);
      assert (UNKNOWN_PREFIX + da + ")")[|UNKNOWN_PREFIX|..|UNKNOWN_PREFIX| + |da|] == da;
      assert (UNKNOWN_PREFIX + db + ")")[|UNKNOWN_PREFIX|..|UNKNOWN_PREFIX| + |db|] == db;
      NatToStringInjective(a as nat, b as nat);
    }
  }

  /** A failed read is reported as an unknown alarm. */
  lemma ReadFailureIsUnknown()
    ensures READ_FAILURE != NO_ALARM && READ_FAILURE !in ALARM_LABELS
    ensures ParseAlarmSignal(READ_FAILURE) == UNKNOWN_PREFIX + "255" + ")"
  {
    assert NatToString(25) == NatToString(2) + [DigitChar(5)];
  }

  // ---------------------------------------------------------------------------
  // What the monitor remembers, and what a poll does to it
  // ---------------------------------------------------------------------------

  /** The reported codes and the alarm callbacks sent so far. */
  datatype Memory = Memory(reported: set<uint8>, sent: seq<string>)

  /** `report_alarm`: a code already reported is skipped; otherwise it is marked and then sent. */
  function Report(m: Memory, v: uint8, description: string): Memory
  {
    if v in m.reported then m else Memory(m.reported + {v}, m.sent + [description])
  }

  /** One enabled poll: a fault is reported with its description, the "no alarm" code forgets all reports. */
  function Poll(m: Memory, v: uint8): Memory
  {
    if v != NO_ALARM then Report(m, v, ParseAlarmSignal(v)) else Memory({}, m.sent)
  }

  /** Enabled polls of the readings `vs`, in order. */
  function Polls(m: Memory, vs: seq<uint8>): Memory
  {
    if vs == [] then m else Poll(Polls(m, vs[..|vs| - 1]), vs[|vs| - 1])
  }

  /** Polls only ever add callbacks: what was sent stays sent, in the same order. */
  lemma {:induction false} PollsOnlyAppend(m: Memory, vs: seq<uint8>)
    ensures |Polls(m, vs).sent| >= |m.sent| && Polls(m, vs).sent[..|m.sent|] == m.sent
    ensures |Polls(m, vs).sent| <= |m.sent| + |vs|
  {
    if vs != [] {
      PollsOnlyAppend(m, vs[..|vs| - 1]);
    }
  }

  /** `k` copies of `v`. */
  function Repeat(v: uint8, k: nat): (r: seq<uint8>)
    ensures |r| == k && forall i :: 0 <= i < k ==> r[i] == v
  {
    if k == 0 then [] else Repeat(v, k - 1) + [v]
  }

  /**
   * Polling the same fault again and again sends exactly one callback, and
   * none at all when the fault was already reported.
   */
  lemma {:induction false} RepeatedFaultSentOnce(m: Memory, v: uint8, k: nat)
    requires v != NO_ALARM && k > 0
    ensures Polls(m, Repeat(v, k)).sent == m.sent + (if v in m.reported then [] else [ParseAlarmSignal(v)])
    ensures Polls(m, Repeat(v, k)).reported == m.reported + {v}
  {
    if k > 1 {
      assert Repeat(v, k)[..k - 1] == Repeat(v, k - 1);
      RepeatedFaultSentOnce(m, v, k - 1);
    }
  }

  /** After the "no alarm" code, the same fault is reported afresh. */
  lemma ClearReportsAfresh(m: Memory, v: uint8)
    requires v != NO_ALARM
    ensures Polls(m, [v, NO_ALARM, v]).sent == Poll(m, v).sent + [ParseAlarmSignal(v)]
  {
    var vs := [v, NO_ALARM, v];
    assert vs[..2][..1] == [v];
    assert vs[..2] == [v, NO_ALARM];
    assert Polls(m, [v]) == Poll(m, v);
  }

  // ---------------------------------------------------------------------------
  // The monitor
  // ---------------------------------------------------------------------------

  class AlarmMonitor {
    /** `m_running` */
    var running: bool
    /** `m_enabled` */
    var enabled: bool
    /** `m_interval_ms` */
    var intervalMs: int
    /** The codes of `m_reported_alarms` (every entry it holds is `true`). */
    var reported: set<uint8>
    /** The descriptions handed to `send_alarm_callback`, in order. */
    var sent: seq<string>

    function Remembered(): Memory
      reads this
    {
      Memory(reported, sent)
    }

    constructor ()
      ensures !running && !enabled && intervalMs == 1000
      ensures reported == {} && sent == []
    {
      running := false;
      enabled := false;
      intervalMs := 1000;
      reported := {};
      sent := [];
    }

    /** `start`: nothing happens while running; otherwise the monitor is armed with an empty memory. */
    method Start(interval: int)
      modifies this
      ensures old(running) ==> (running == old(running) && enabled == old(enabled)
        && intervalMs == old(intervalMs) && reported == old(reported))
      ensures !old(running) ==> running && enabled && intervalMs == interval && reported == {}
      ensures sent == old(sent)
    {
      if running {
        return;
      }
      intervalMs := interval;
      running := true;
      enabled := true;
      reported := {};
    }

    /** `stop`: only a running monitor is switched off, and only then is the thread joined. */
    method Stop() returns (joined: bool)
      modifies this`running
      ensures !running
      ensures joined == old(running)
    {
      joined := running;
      running := false;
    }

    /** `set_enabled` */
    method SetEnabled(on: bool)
      modifies this`enabled
      ensures enabled == on
    {
      enabled := on;
    }

    /** `report_alarm` */
    method ReportAlarm(v: uint8, description: string)
      modifies this`reported, this`sent
      ensures Remembered() == Report(old(Remembered()), v, description)
      ensures v in reported
    {
      if v in reported {
        return;
      }
      reported := reported + {v};
      sent := sent + [description];
    }

    /** One pass of `monitor_thread_func`'s loop body, given the value read. A disabled monitor does nothing. */
    method MonitorStep(v: uint8)
      modifies this`reported, this`sent
      ensures Remembered() == if enabled then Poll(old(Remembered()), v) else old(Remembered())
    {
      if enabled {
        if v != NO_ALARM {
          var description := ParseAlarmSignal(v);
          ReportAlarm(v, description);
        } else if reported != {} {
          reported := {};
        }
      }
    }

    /** `monitor_thread_func`: while running, one pass per reading in `readings`. */
    method MonitorLoop(readings: seq<uint8>)
      modifies this`reported, this`sent
      ensures Remembered() == if running && enabled then Polls(old(Remembered()), readings) else old(Remembered())
    {
      var i := 0;
      while running && i < |readings|
        invariant 0 <= i <= |readings|
        invariant Remembered() == if enabled then Polls(old(Remembered()), readings[..i]) else old(Remembered())
        invariant !running ==> i == 0
      {
        assert readings[..i + 1][..i] == readings[..i];
        MonitorStep(readings[i]);
        i := i + 1;
      }
      assert running ==> readings[..i] == readings;
    }
  }
}
