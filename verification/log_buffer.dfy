/** The per-application log buffer of lib/daemon/logger.js: a list of lines,
    the running byte total of those lines, and a write cursor that separates
    the lines already delivered to a logging process from those still owed.

    New lines are appended at the back; when a line would push the buffer
    past the application's `max-buffered-log-bytes`, the oldest lines are
    evicted from the front first, and every evicted line that had not been
    delivered yet is reported as truncated. */
module LogBuffer {
  import opened Common
  import opened Application
  import Supervision

  /** The fields of the writing process copied into every line. `generation`
      is the name of its generation, or `None` for the source's `null`. */
  datatype Origin = Origin(pid: int, id: nat, number: int, generation: Option<string>)

  /** Extra fields merged into a line: the `truncated` byte count of an
      output chunk (possibly absent), or the description of an error. */
  datatype Extra =
    | NoExtra
    | TruncatedField(truncated: Option<nat>)
    | ErrorField(name: string, message: string, stack: string)

  /** What is sent to the logging process for one line. */
  datatype LineData = LineData(
    kind: string,
    text: string,
    bytes: nat,
    timestamp: int,
    app: string,
    origin: Origin,
    extra: Extra)

  /** A buffered line together with the id of the process that wrote it. */
  datatype Line = Line(writer: nat, data: LineData)

  /** The buffer of one application. Lines before `writeIndex` have been
      delivered; the others are still owed to a logging process. */
  datatype Logs = Logs(app: App, bytes: int, writeIndex: int, lines: seq<Line>)

  /** A line dropped before it was delivered: its writer and its size. */
  datatype Truncation = Truncation(writer: nat, bytes: nat)

  /** Notifications the logger emits. */
  datatype Notice =
    | Truncated(truncation: Truncation)
    | TruncatedOutput(amount: nat)
    | LineAdded(line: Line)
    | Inactive

  function SumBytes(lines: seq<Line>): nat {
    if |lines| == 0 then 0 else lines[0].data.bytes + SumBytes(lines[1..])
  }

  /** The buffer invariant: the byte counter is the total size of the
      buffered lines and the cursor lies within the buffer. */
  predicate Valid(logs: Logs) {
    && logs.bytes == SumBytes(logs.lines)
    && 0 <= logs.writeIndex <= |logs.lines|
  }

  /** The buffer holds no more than its application allows. */
  predicate WithinLimit(logs: Logs) {
    logs.bytes <= logs.app.maxBufferedLogBytes
  }

  lemma {:induction false} SumBytesSplit(lines: seq<Line>, k: nat)
    requires k <= |lines|
    ensures SumBytes(lines) == SumBytes(lines[..k]) + SumBytes(lines[k..])
    decreases k
  {
    if k == 0 {
      assert lines[..k] == [] && lines[k..] == lines;
    } else {
      assert lines[..k][0] == lines[0];
      assert lines[..k][1..] == lines[1..][..k - 1];
      assert lines[k..] == lines[1..][k - 1..];
      SumBytesSplit(lines[1..], k - 1);
    }
  }

  lemma SumBytesAppend(lines: seq<Line>, line: Line)
    ensures SumBytes(lines + [line]) == SumBytes(lines) + line.data.bytes
  {
    var all := lines + [line];
    SumBytesSplit(all, |lines|);
    assert all[..|lines|] == lines;
    assert all[|lines|..] == [line];
    assert [line][1..] == [];
  }

  // ---------------------------------------------------------------------
  // Eviction
  // ---------------------------------------------------------------------

  /** The number of oldest lines to drop, one at a time, until `target`
      (the buffered bytes plus the incoming amount, less what has been
      dropped) is at most `max`. */
  function EvictCount(lines: seq<Line>, target: int, max: int): (k: nat)
    ensures k <= |lines|
  {
    if target <= max || |lines| == 0 then 0
    else 1 + EvictCount(lines[1..], target - lines[0].data.bytes, max)
  }

  /** Dropping the first `k` lines brings `target` down to at most `max`. */
  predicate Fits(lines: seq<Line>, k: nat, target: int, max: int)
    requires k <= |lines|
  {
    target - SumBytes(lines[..k]) <= max
  }

  /** Dropping the first `k` lines of the buffer leaves room for `amount` more bytes. */
  predicate Room(logs: Logs, amount: nat, k: nat)
    requires k <= |logs.lines|
  {
    Fits(logs.lines, k, logs.bytes + amount, logs.app.maxBufferedLogBytes)
  }

  /** Eviction drops the shortest prefix that makes room: dropping that many
      lines fits, and dropping fewer does not. */
  lemma {:induction false} EvictCountIsShortest(lines: seq<Line>, target: int, max: int)
    requires target - SumBytes(lines) <= max
    ensures Fits(lines, EvictCount(lines, target, max), target, max)
    ensures forall j :: 0 <= j < EvictCount(lines, target, max) ==> !Fits(lines, j, target, max)
    decreases |lines|
  {
    var k := EvictCount(lines, target, max);
    if target <= max || |lines| == 0 {
      assert lines[..0] == [];
    } else {
      var rest := lines[1..];
      var t := target - lines[0].data.bytes;
      assert SumBytes(lines) == lines[0].data.bytes + SumBytes(rest);
      EvictCountIsShortest(rest, t, max);
      assert k == 1 + EvictCount(rest, t, max);
      forall j | 0 < j <= |lines|
        ensures SumBytes(lines[..j]) == lines[0].data.bytes + SumBytes(rest[..j - 1])
      {
        assert lines[..j][0] == lines[0];
        assert lines[..j][1..] == rest[..j - 1];
      }
      assert Fits(rest, k - 1, t, max);
      assert Fits(lines, k, target, max);
      forall j | 0 <= j < k
        ensures !Fits(lines, j, target, max)
      {
        if j == 0 {
          assert lines[..0] == [];
        } else {
          assert !Fits(rest, j - 1, t, max);
        }
      }
    }
  }

  /** The truncation reported for each of `lines`, in order. */
  function Truncations(lines: seq<Line>): (ts: seq<Truncation>)
    ensures |ts| == |lines|
  {
    seq(|lines|, i requires 0 <= i < |lines| => Truncation(lines[i].writer, lines[i].data.bytes))
  }

  /** The outcome of `_guaranteeFreeSpace`: refused (it returns false and
      leaves the buffer alone), or admitted with the buffer after eviction
      and the truncations reported on the way. */
  datatype Admission = Refused | Admitted(logs: Logs, truncations: seq<Truncation>)

  /** Make room for `amount` more bytes. An amount above the limit is
      refused outright. Otherwise the shortest prefix of oldest lines that
      makes room is dropped; the cursor moves back by the number dropped,
      stopping at 0, and each dropped line at or past the cursor (never
      delivered) is reported. */
  function GuaranteeFreeSpace(logs: Logs, amount: nat): (r: Admission)
    requires Valid(logs)
    ensures r.Refused? <==> amount > logs.app.maxBufferedLogBytes
    ensures r.Admitted? ==>
              var k := |logs.lines| - |r.logs.lines|;
              && 0 <= k
              && r.logs.app == logs.app
              && r.logs.lines == logs.lines[k..]
              && Valid(r.logs)
              && r.logs.bytes + amount <= logs.app.maxBufferedLogBytes
              && r.logs.writeIndex == Max(0, logs.writeIndex - k)
              && r.truncations == Truncations(logs.lines[Min(logs.writeIndex, k)..k])
  {
    var max := logs.app.maxBufferedLogBytes;
    if amount > max then Refused
    else
      var target := logs.bytes + amount;
      var k := EvictCount(logs.lines, target, max);
      EvictCountIsShortest(logs.lines, target, max);
      SumBytesSplit(logs.lines, k);
      var kept := Logs(logs.app, logs.bytes - SumBytes(logs.lines[..k]), Max(0, logs.writeIndex - k), logs.lines[k..]);
      Admitted(kept, Truncations(logs.lines[Min(logs.writeIndex, k)..k]))
  }

  /** Eviction is exactly the shortest prefix that makes room, and the
      number of truncation reports is the number of dropped lines that were
      still owed: `max(0, k - writeIndex)`. */
  lemma EvictionIsMinimal(logs: Logs, amount: nat)
    requires Valid(logs) && amount <= logs.app.maxBufferedLogBytes
    ensures var r := GuaranteeFreeSpace(logs, amount);
            var k := |logs.lines| - |r.logs.lines|;
            && r.Admitted?
            && k == EvictCount(logs.lines, logs.bytes + amount, logs.app.maxBufferedLogBytes)
            && (forall j :: 0 <= j < k ==> !Room(logs, amount, j))
            && |r.truncations| == Max(0, k - logs.writeIndex)
  {
    EvictCountIsShortest(logs.lines, logs.bytes + amount, logs.app.maxBufferedLogBytes);
  }

  /** A buffer that already has room is left untouched. */
  lemma RoomyBufferKept(logs: Logs, amount: nat)
    requires Valid(logs) && logs.bytes + amount <= logs.app.maxBufferedLogBytes
    ensures GuaranteeFreeSpace(logs, amount) == Admitted(logs, [])
  {
    assert logs.lines[..0] == [] && logs.lines[0..] == logs.lines;
  }

  /** What one turn of the eviction loop changes, at walk position `i`. */
  lemma WalkStep(lines: seq<Line>, i: nat, w: nat, target: int, max: int)
    requires i < |lines| && target > max
    ensures SumBytes(lines[..i + 1]) == SumBytes(lines[..i]) + lines[i].data.bytes
    ensures EvictCount(lines[i..], target, max) == 1 + EvictCount(lines[i + 1..], target - lines[i].data.bytes, max)
    ensures Truncations(lines[Min(w, i + 1)..i + 1])
            == Truncations(lines[Min(w, i)..i]) + (if i >= w then [Truncation(lines[i].writer, lines[i].data.bytes)] else [])
  {
    assert lines[..i + 1] == lines[..i] + [lines[i]];
    SumBytesAppend(lines[..i], lines[i]);
    assert lines[i..][1..] == lines[i + 1..];
    if i >= w {
      assert lines[w..i + 1] == lines[w..i] + [lines[i]];
    }
  }

  /** The declarative eviction, once the number of dropped lines is known. */
  lemma EvictionAfter(logs: Logs, amount: nat, k: nat)
    requires Valid(logs) && amount <= logs.app.maxBufferedLogBytes
    requires k == EvictCount(logs.lines, logs.bytes + amount, logs.app.maxBufferedLogBytes)
    ensures GuaranteeFreeSpace(logs, amount)
            == Admitted(Logs(logs.app, logs.bytes - SumBytes(logs.lines[..k]), Max(0, logs.writeIndex - k), logs.lines[k..]),
                        Truncations(logs.lines[Min(logs.writeIndex, k)..k]))
  {
  }

  /** The walk cannot run off the end of the buffer: with every line
      dropped, only the incoming amount remains, and that fits. */
  lemma WalkInBounds(lines: seq<Line>, i: nat, target: int, amount: nat, max: int)
    requires i <= |lines| && amount <= max < target
    requires target == SumBytes(lines) + amount - SumBytes(lines[..i])
    ensures i < |lines|
  {
    assert lines[..|lines|] == lines;
  }

  /** The loop of `_guaranteeFreeSpace` as written: walk the lines from the
      front, decrementing the target, the byte counter and the cursor, and
      report a line once the cursor would go negative. Under the buffer
      invariant the walk never indexes past the end; it stops after exactly
      the lines the declarative eviction drops. */
  method EvictionWalk(logs: Logs, amount: nat) returns (i: nat, bytes: int, writeIndex: int, truncations: seq<Truncation>)
    requires Valid(logs) && amount <= logs.app.maxBufferedLogBytes
    ensures i == EvictCount(logs.lines, logs.bytes + amount, logs.app.maxBufferedLogBytes)
    ensures i <= |logs.lines|
    ensures bytes == logs.bytes - SumBytes(logs.lines[..i])
    ensures writeIndex == Max(0, logs.writeIndex - i)
    ensures truncations == Truncations(logs.lines[Min(logs.writeIndex, i)..i])
  {
    var max := logs.app.maxBufferedLogBytes;
    var lines := logs.lines;
    bytes := logs.bytes;
    var target := bytes + amount;
    writeIndex := logs.writeIndex;
    truncations := [];
    ghost var total := logs.bytes + amount;
    i := 0;
    assert lines[..0] == [] && lines[0..] == lines;
    while target > max
      invariant 0 <= i <= |lines|
      invariant target == total - SumBytes(lines[..i])
      invariant bytes == target - amount
      invariant writeIndex == Max(0, logs.writeIndex - i)
      invariant truncations == Truncations(lines[Min(logs.writeIndex, i)..i])
      invariant EvictCount(lines, total, max) == i + EvictCount(lines[i..], target, max)
      decreases |lines| - i
    {
      WalkInBounds(lines, i, target, amount, max);
      var line := lines[i];
      WalkStep(lines, i, logs.writeIndex, target, max);
      target := target - line.data.bytes;
      bytes := bytes - line.data.bytes;
      writeIndex := writeIndex - 1;
      if writeIndex < 0 {
        writeIndex := 0;
        truncations := truncations + [Truncation(line.writer, line.data.bytes)];
      }
      i := i + 1;
    }
  }

  /** `_guaranteeFreeSpace` as written: refuse an oversized amount, walk,
      then splice the walked lines off. The result is the declarative
      eviction. */
  method GuaranteeFreeSpaceInPlace(logs: Logs, amount: nat) returns (r: Admission)
    requires Valid(logs)
    ensures r == GuaranteeFreeSpace(logs, amount)
  {
    if amount > logs.app.maxBufferedLogBytes {
      return Refused;
    }
    var i, bytes, writeIndex, truncations := EvictionWalk(logs, amount);
    var lines := logs.lines;
    if i > 0 {
      lines := lines[i..];
    }
    assert lines == logs.lines[i..];
    EvictionAfter(logs, amount, i);
    r := Admitted(Logs(logs.app, bytes, writeIndex, lines), truncations);
  }

  // ---------------------------------------------------------------------
  // Appending
  // ---------------------------------------------------------------------

  /** The number of bytes of `s` in UTF-8 (section 3 of RFC 3629): one byte
      below U+0080, two below U+0800, three below U+10000, four above. */
  function Utf8Length(s: string): (n: nat)
    ensures |s| <= n <= 4 * |s|
  {
    if |s| == 0 then 0
    else
      var c := s[0] as int;
      (if c < 0x80 then 1 else if c < 0x800 then 2 else if c < 0x1_0000 then 3 else 4) + Utf8Length(s[1..])
  }

  function OriginOf(p: Supervision.Process): (o: Origin)
    ensures o.id == p.id && o.pid == p.pid && o.number == p.number
    ensures o.generation.Some? <==> p.generation.Some?
  {
    Origin(p.pid, p.id, p.number, if p.generation.Some? then Some(p.generation.value.name) else None)
  }

  /** The buffer after `_pushLogEvent` and the notices it emitted. */
  datatype Pushed = Pushed(logs: Logs, notices: seq<Notice>)

  function NoticesOf(ts: seq<Truncation>): (ns: seq<Notice>)
    ensures |ns| == |ts|
    ensures forall i :: 0 <= i < |ts| ==> ns[i] == Truncated(ts[i])
  {
    seq(|ts|, i requires 0 <= i < |ts| => Truncated(ts[i]))
  }

  /** Append one event of process `p` to the buffer, stamped `now`. A text
      larger than the limit is reported as truncated and nothing is
      appended; otherwise room is made and the line goes last. */
  function PushLogEvent(logs: Logs, p: Supervision.Process, kind: string, text: string, now: int, extra: Extra): (r: Pushed)
    requires Valid(logs)
    ensures Valid(r.logs) && r.logs.app == logs.app
    ensures var bytes := Utf8Length(text);
            if bytes > logs.app.maxBufferedLogBytes then
              r == Pushed(logs, [Truncated(Truncation(p.id, bytes))])
            else
              && WithinLimit(r.logs)
              && |r.logs.lines| >= 1
              && var line := r.logs.lines[|r.logs.lines| - 1];
              && line == Line(p.id, LineData(kind, text, bytes, now, logs.app.name, OriginOf(p), extra))
              && r.notices == NoticesOf(GuaranteeFreeSpace(logs, bytes).truncations) + [LineAdded(line)]
  {
    var bytes := Utf8Length(text);
    match GuaranteeFreeSpace(logs, bytes)
    case Refused => Pushed(logs, [Truncated(Truncation(p.id, bytes))])
    case Admitted(kept, ts) =>
      var line := Line(p.id, LineData(kind, text, bytes, now, kept.app.name, OriginOf(p), extra));
      SumBytesAppend(kept.lines, line);
      Pushed(kept.(lines := kept.lines + [line], bytes := kept.bytes + bytes), NoticesOf(ts) + [LineAdded(line)])
  }

  /** An accepted line lands after the survivors of eviction, which keep
      their order; the byte counter stays the sum of the lines and within the
      limit; and the cursor stays inside the buffer. */
  lemma PushKeepsOrderAndBounds(logs: Logs, p: Supervision.Process, kind: string, text: string, now: int, extra: Extra)
    requires Valid(logs) && Utf8Length(text) <= logs.app.maxBufferedLogBytes
    ensures var r := PushLogEvent(logs, p, kind, text, now, extra);
            var k := |logs.lines| + 1 - |r.logs.lines|;
            && 0 <= k <= |logs.lines|
            && r.logs.lines[..|r.logs.lines| - 1] == logs.lines[k..]
            && r.logs.bytes == SumBytes(r.logs.lines) <= logs.app.maxBufferedLogBytes
            && r.logs.writeIndex == Max(0, logs.writeIndex - k)
            && |r.notices| == Max(0, k - logs.writeIndex) + 1
            && r.notices[..|r.notices| - 1] == NoticesOf(Truncations(logs.lines[Min(logs.writeIndex, k)..k]))
            && r.notices[|r.notices| - 1] == LineAdded(r.logs.lines[|r.logs.lines| - 1])
  {
    var bytes := Utf8Length(text);
    EvictionIsMinimal(logs, bytes);
    var a := GuaranteeFreeSpace(logs, bytes);
    var line := Line(p.id, LineData(kind, text, bytes, now, a.logs.app.name, OriginOf(p), extra));
    var r := PushLogEvent(logs, p, kind, text, now, extra);
    assert r.logs.lines == a.logs.lines + [line];
    assert r.notices == NoticesOf(a.truncations) + [LineAdded(line)];
    assert r.logs.lines[..|r.logs.lines| - 1] == a.logs.lines;
    assert r.notices[..|r.notices| - 1] == NoticesOf(a.truncations);
  }

  // ---------------------------------------------------------------------
  // Creation and delivery
  // ---------------------------------------------------------------------

  /** A fresh buffer for `app`. */
  function NewLogs(app: App): (logs: Logs)
    ensures Valid(logs) && logs.app == app && logs.lines == [] && logs.writeIndex == 0
  {
    Logs(app, 0, 0, [])
  }

  /** An existing buffer seen again with `app`: the configuration is replaced
      only by a strictly newer revision; lines, bytes and cursor are kept. */
  function Refresh(logs: Logs, app: App): (r: Logs)
    ensures r.lines == logs.lines && r.bytes == logs.bytes && r.writeIndex == logs.writeIndex
    ensures r.app == (if app.revision > logs.app.revision then app else logs.app)
  {
    if app.revision > logs.app.revision then logs.(app := app) else logs
  }

  /** The data of the lines still owed, oldest first. */
  function Owed(logs: Logs): (data: seq<LineData>)
    requires Valid(logs)
    ensures |data| == |logs.lines| - logs.writeIndex
    ensures forall i :: 0 <= i < |data| ==> data[i] == logs.lines[logs.writeIndex + i].data
  {
    seq(|logs.lines| - logs.writeIndex, i requires 0 <= i < |logs.lines| - logs.writeIndex => logs.lines[logs.writeIndex + i].data)
  }

  /** The buffer once everything is delivered: the lines stay buffered and
      only the cursor moves to the end. */
  function Delivered(logs: Logs): (r: Logs)
    ensures Valid(logs) ==> Valid(r)
    ensures r.app == logs.app && r.lines == logs.lines && r.bytes == logs.bytes
    ensures r.writeIndex == |logs.lines|
  {
    logs.(writeIndex := |logs.lines|)
  }

  /** A delivered buffer owes nothing. */
  lemma DeliveredOwesNothing(logs: Logs)
    requires Valid(logs)
    ensures Owed(Delivered(logs)) == []
    ensures Delivered(Delivered(logs)) == Delivered(logs)
  {
  }

  /** The delivery loop of `flush`: send each line from the cursor on, then
      leave the cursor at the end. */
  method DeliverInPlace(logs: Logs) returns (sent: seq<LineData>, after: Logs)
    requires Valid(logs)
    ensures sent == Owed(logs)
    ensures after == Delivered(logs)
  {
    var writeIndex := logs.writeIndex;
    sent := [];
    while writeIndex < |logs.lines|
      invariant logs.writeIndex <= writeIndex <= |logs.lines|
      invariant |sent| == writeIndex - logs.writeIndex
      invariant forall i :: 0 <= i < |sent| ==> sent[i] == logs.lines[logs.writeIndex + i].data
    {
      sent := sent + [logs.lines[writeIndex].data];
      writeIndex := writeIndex + 1;
    }
    after := logs.(writeIndex := writeIndex);
  }
}
