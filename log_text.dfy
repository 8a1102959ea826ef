/** The text of the session log: the stamped line formats, the lines a queue
    drain produces, and the last-twenty view shown under "Logs".
 */
module LogText {
  import opened Wire

  // ---------------------------------------------------------------------------
  // Line formats

  /** Every log line starts with the wall-clock time in brackets and a space. */
  function Stamped(ts: string, body: string): string
  {
    "[" + ts + "] " + body
  }

  /** The line for a drained queue entry: `[ts] topic: payload`. */
  function EntryLine(ts: string, e: Entry): (line: string)
    ensures ']' !in ts ==> SplitStamp(line) == Some((ts, e.topic + ": " + e.payload))
  {
    var line := Stamped(ts, e.topic + ": " + e.payload);
    if ']' !in ts then StampRoundTrip(ts, e.topic + ": " + e.payload); line else line
  }

  /** The line added after a command was published: `[ts] SENT LAND`. */
  function SentLine(ts: string, a: Action): (line: string)
    ensures ']' !in ts ==> SplitStamp(line) == Some((ts, "SENT " + ActionName(a)))
  {
    var line := Stamped(ts, "SENT " + ActionName(a));
    if ']' !in ts then StampRoundTrip(ts, "SENT " + ActionName(a)); line else line
  }

  /** The line added by the Reconnect button. */
  function ReconnectLine(ts: string): (line: string)
    ensures ']' !in ts ==> SplitStamp(line) == Some((ts, "Reconnecting..."))
  {
    var line := Stamped(ts, "Reconnecting...");
    if ']' !in ts then StampRoundTrip(ts, "Reconnecting..."); line else line
  }

  /** Position of the first `c` in `s`, if any. */
  function FirstIndex(s: string, c: char): (r: Option<nat>)
    ensures r.Some? ==> r.value < |s| && s[r.value] == c && forall j :: 0 <= j < r.value ==> s[j] != c
    ensures r.None? ==> c !in s
  {
    if s == [] then None
    else if s[0] == c then Some(0)
    else match FirstIndex(s[1..], c)
      case None => None
      case Some(j) => Some(j + 1)
  }

  /** Splits a line into its bracketed time and its body. */
  function SplitStamp(line: string): Option<(string, string)>
  {
    if |line| > 0 && line[0] == '[' then
      match FirstIndex(line[1..], ']')
      case None => None
      case Some(j) =>
        if j + 2 < |line| && line[j + 2] == ' ' then Some((line[1..j + 1], line[j + 3..])) else None
    else None
  }

  /** A time of day without `]` (such as `%H:%M:%S` text) can be read back
      from every line stamped with it, and so can the line's body. */
  lemma StampRoundTrip(ts: string, body: string)
    requires ']' !in ts
    ensures SplitStamp(Stamped(ts, body)) == Some((ts, body))
  {
    var line := Stamped(ts, body);
    assert line[1..] == ts + "] " + body;
    var r := FirstIndex(line[1..], ']');
    assert (ts + "] " + body)[|ts|] == ']';
    assert r.Some? && r.value == |ts|;
    assert line[1..|ts| + 1] == ts;
    assert line[|ts| + 3..] == body;
  }

  // ---------------------------------------------------------------------------
  // Drained lines

  /** The lines a drain of `entries` appends, the `i`-th stamped with the
      `i`-th reading `clock(i)` of the wall clock. */
  function DrainLines(entries: seq<Entry>, clock: nat -> string): (lines: seq<string>)
    ensures |lines| == |entries|
  {
    if entries == [] then []
    else DrainLines(entries[..|entries| - 1], clock)
         + [EntryLine(clock(|entries| - 1), entries[|entries| - 1])]
  }

  /** Draining gives exactly one line per entry, in queue (FIFO) order. */
  lemma {:induction false} DrainLinesInOrder(entries: seq<Entry>, clock: nat -> string)
    ensures |DrainLines(entries, clock)| == |entries|
    ensures forall i :: 0 <= i < |entries| ==>
              DrainLines(entries, clock)[i] == EntryLine(clock(i), entries[i])
  {
    if entries != [] {
      DrainLinesInOrder(entries[..|entries| - 1], clock);
    }
  }

  /** The clock as read after `k` earlier readings. */
  function Later(clock: nat -> string, k: nat): nat -> string
  {
    (i: nat) => clock(k + i)
  }

  /** Draining `a + b` gives the lines of `a`, then those of `b` stamped with
      the clock readings that follow. */
  lemma {:induction false} DrainLinesAppend(a: seq<Entry>, b: seq<Entry>, clock: nat -> string)
    ensures DrainLines(a + b, clock) == DrainLines(a, clock) + DrainLines(b, Later(clock, |a|))
  {
    if b == [] {
      assert a + b == a;
    } else {
      var front := b[..|b| - 1];
      assert (a + b)[..|a + b| - 1] == a + front;
      assert (a + b)[|a + b| - 1] == b[|b| - 1];
      DrainLinesAppend(a, front, clock);
    }
  }

  // ---------------------------------------------------------------------------
  // The log view

  const ViewSize: nat := 20

  /** Python's `logs[-20:]`: the most recent lines, at most twenty, in order. */
  function Recent(logs: seq<string>): (r: seq<string>)
    ensures |r| == if |logs| < ViewSize then |logs| else ViewSize
    ensures logs == logs[..|logs| - |r|] + r
  {
    if |logs| <= ViewSize then logs else logs[|logs| - ViewSize..]
  }

  /** Lines just appended, up to twenty of them, are always at the bottom of
      the view, however long the log already was. */
  lemma NewestLinesVisible(logs: seq<string>, extra: seq<string>)
    requires |extra| <= ViewSize
    ensures |extra| <= |Recent(logs + extra)|
    ensures Recent(logs + extra)[|Recent(logs + extra)| - |extra|..] == extra
  {
    var all := logs + extra;
    var r := Recent(all);
    assert all[|all| - |extra|..] == extra;
    assert r == all[|all| - |r|..];
    assert r[|r| - |extra|..] == all[|all| - |extra|..];
  }

  /** Python's `"\n".join(lines)`. */
  function Join(lines: seq<string>): string
  {
    if |lines| == 0 then ""
    else if |lines| == 1 then lines[0]
    else lines[0] + "\n" + Join(lines[1..])
  }

  /** Python's `s.split("\n")`: the text between newlines (at least one piece). */
  function Split(s: string): (r: seq<string>)
    ensures |r| >= 1
  {
    if s == [] then [""]
    else
      var rest := Split(s[1..]);
      if s[0] == '\n' then [""] + rest else [[s[0]] + rest[0]] + rest[1..]
  }

  predicate NoNewline(lines: seq<string>)
  {
    forall i :: 0 <= i < |lines| ==> '\n' !in lines[i]
  }

  lemma {:induction false} SplitLine(a: string, tail: seq<string>, b: string)
    requires '\n' !in a
    requires Split(b) == tail
    ensures Split(a + b) == [a + tail[0]] + tail[1..]
  {
    if a != [] {
      assert (a + b)[1..] == a[1..] + b;
      SplitLine(a[1..], tail, b);
      assert [a[0]] + (a[1..] + tail[0]) == a + tail[0];
    } else {
      assert a + b == b && a + tail[0] == tail[0];
      assert tail == [tail[0]] + tail[1..];
    }
  }

  /** Splitting the joined lines gives the lines back, when no line holds a
      newline of its own. */
  lemma {:induction false} SplitJoin(lines: seq<string>)
    requires |lines| >= 1 && NoNewline(lines)
    ensures Split(Join(lines)) == lines
  {
    if |lines| == 1 {
      SplitLine(lines[0], [""], "");
      assert lines[0] + "" == lines[0];
    } else {
      SplitJoin(lines[1..]);
      var rest := Join(lines[1..]);
      assert Split("\n" + rest) == [""] + lines[1..];
      SplitLine(lines[0], [""] + lines[1..], "\n" + rest);
      assert lines[0] + "\n" + rest == lines[0] + ("\n" + rest);
      var tail := [""] + lines[1..];
      assert tail[0] == "" && tail[1..] == lines[1..];
      assert lines[0] + "" == lines[0];
      assert [lines[0]] + lines[1..] == lines;
    }
  }

  /** The last of the joined lines ends the joined text. */
  lemma {:induction false} JoinEndsWithLast(lines: seq<string>)
    requires |lines| >= 1
    ensures |lines[|lines| - 1]| <= |Join(lines)|
    ensures Join(lines)[|Join(lines)| - |lines[|lines| - 1]|..] == lines[|lines| - 1]
  {
    if |lines| > 1 {
      JoinEndsWithLast(lines[1..]);
      var rest := Join(lines[1..]);
      assert Join(lines) == (lines[0] + "\n") + rest;
      assert lines[1..][|lines[1..]| - 1] == lines[|lines| - 1];
    }
  }

  /** The text of the log box: the recent lines joined by newlines. The newest
      log line always ends the text. */
  function LogView(logs: seq<string>): (text: string)
    ensures logs == [] ==> text == ""
    ensures logs != [] ==> |logs[|logs| - 1]| <= |text|
                           && text[|text| - |logs[|logs| - 1]|..] == logs[|logs| - 1]
  {
    var r := Recent(logs);
    if r != [] then JoinEndsWithLast(r); Join(r) else Join(r)
  }

  /** The box shows nothing for an empty log; otherwise, when no line holds a
      newline, its text rows are exactly `min(20, |logs|)` most recent lines
      in their original order. */
  lemma LogViewRows(logs: seq<string>)
    ensures logs == [] ==> LogView(logs) == ""
    ensures logs != [] && NoNewline(logs) ==> Split(LogView(logs)) == Recent(logs)
  {
    if logs != [] && NoNewline(logs) {
      var r := Recent(logs);
      assert forall i :: 0 <= i < |r| ==> r[i] == logs[|logs| - |r| + i];
      SplitJoin(r);
    }
  }
}
