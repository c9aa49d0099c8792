/**
 * Reading the AI email log (`get_ai_email_logs`): the last lines of the log
 * file, the entries that carry the marker, split into timestamp and message,
 * newest first. The file is an input: missing, unreadable, or its lines as
 * `readlines()` returns them.
 */
module EmailLogs {
  import opened Outcomes
  import opened Strings

  const Marker: string := "AI Email:"
  const NoLogFile: string := "AI email log file not found"

  datatype LogEntry = LogEntry(timestamp: string, message: string)

  datatype LogFile = LogMissing | LogUnreadable(error: string) | LogLines(lines: seq<string>)

  datatype LogsReply = LogsReply(success: bool, message: Option<string>, logs: seq<LogEntry>)

  /** Python's `xs[start:]`: the suffix that a non-negative start skips to, or the last `-start` items. */
  function SliceFrom<T>(xs: seq<T>, start: int): (r: seq<T>)
    ensures |r| == if 0 <= start then (if start <= |xs| then |xs| - start else 0)
                   else (if -start <= |xs| then -start else |xs|)
    ensures r == xs[|xs| - |r|..]
  {
    if 0 <= start then (if start <= |xs| then xs[start..] else [])
    else if -start <= |xs| then xs[|xs| + start..] else xs
  }

  /** The items in reverse order (`list.reverse()`). */
  function Reverse<T>(xs: seq<T>): (r: seq<T>)
    ensures |r| == |xs|
    ensures forall k :: 0 <= k < |xs| ==> r[k] == xs[|xs| - 1 - k]
  {
    if xs == [] then [] else [xs[|xs| - 1]] + Reverse(xs[..|xs| - 1])
  }

  /** Python's `s.split(sep, 1)`. */
  function SplitOnce(s: string, sep: string): (r: seq<string>)
    requires sep != []
    ensures |r| == 1 || |r| == 2
    ensures |r| == 2 <==> Contains(s, sep)
    ensures |r| == 1 ==> r[0] == s
    ensures |r| == 2 ==> r[0] + sep + r[1] == s && !Contains(r[0], sep)
  {
    match Find(s, sep)
    case None => [s]
    case Some(i) =>
      assert s[..i] + sep + s[i + |sep|..] == s by {
        assert s[i..i + |sep|] == sep;
        assert s == s[..i] + s[i..i + |sep|] + s[i + |sep|..];
      }
      assert !Contains(s[..i], sep) by {
        forall k | 0 <= k <= i - |sep|
          ensures !MatchAt(s[..i], sep, k)
        {
          assert !MatchAt(s, sep, k);
          assert s[..i][k..k + |sep|] == s[k..k + |sep|];
        }
      }
      [s[..i], s[i + |sep|..]]
  }

  /** An occurrence whose first character is not whitespace survives `lstrip`. */
  lemma LStripKeeps(s: string, p: string)
    requires p != [] && !IsSpace(p[0]) && Contains(s, p)
    ensures Contains(LStrip(s), p)
  {
    var l := LStrip(s);
    var d := LeadingSpaces(s);
    var i :| 0 <= i <= |s| - |p| && MatchAt(s, p, i);
    LeadingSpacesFacts(s);
    assert s[i] == s[i..i + |p|][0] == p[0];
    forall j | 0 <= j < |p|
      ensures p[j] == l[i - d + j]
    {
      assert s[i..i + |p|][j] == s[i + j];
    }
    MatchPointwise(l, p, i - d);
  }

  /** An occurrence whose last character is not whitespace survives `rstrip`. */
  lemma RStripKeeps(s: string, p: string)
    requires p != [] && !IsSpace(p[|p| - 1]) && Contains(s, p)
    ensures Contains(RStrip(s), p)
  {
    var r := RStrip(s);
    var i :| 0 <= i <= |s| - |p| && MatchAt(s, p, i);
    KeptLengthFacts(s);
    assert s[i + |p| - 1] == s[i..i + |p|][|p| - 1] == p[|p| - 1];
    forall j | 0 <= j < |p|
      ensures p[j] == r[i + j]
    {
      assert s[i..i + |p|][j] == s[i + j];
    }
    MatchPointwise(r, p, i);
  }

  /** `line.strip()` keeps the marker of a line that has one. */
  lemma StripKeepsMarker(line: string)
    requires Contains(line, Marker)
    ensures Contains(Strip(line), Marker)
  {
    LStripKeeps(line, Marker);
    RStripKeeps(LStrip(line), Marker);
  }

  /** The entry one log line yields: only lines with the marker, split once at it, both halves stripped. */
  function ParseLine(line: string): Option<LogEntry>
  {
    if !Contains(line, Marker) then None
    else
      var parts := SplitOnce(Strip(line), Marker);
      if |parts| == 2 then Some(LogEntry(Strip(parts[0]), Strip(parts[1]))) else None
  }

  /** The `len(parts) == 2` test never drops a marked line: a line yields an entry exactly when it has the marker. */
  lemma ParseLineIff(line: string)
    ensures ParseLine(line).Some? <==> Contains(line, Marker)
  {
    if Contains(line, Marker) {
      StripKeepsMarker(line);
    }
  }

  /** The message of an entry does not start or end with whitespace, and neither does its timestamp. */
  lemma EntryTrimmed(line: string)
    requires ParseLine(line).Some?
    ensures var e := ParseLine(line).value;
            (e.timestamp != [] ==> !IsSpace(e.timestamp[0]) && !IsSpace(e.timestamp[|e.timestamp| - 1]))
            && (e.message != [] ==> !IsSpace(e.message[0]) && !IsSpace(e.message[|e.message| - 1]))
  {
    var parts := SplitOnce(Strip(line), Marker);
    StripEnds(parts[0]);
    StripEnds(parts[1]);
  }

  /** The entries of the lines, in file order. */
  function Entries(lines: seq<string>): (r: seq<LogEntry>)
    ensures |r| <= |lines|
  {
    if lines == [] then []
    else
      Entries(lines[..|lines| - 1])
      + match ParseLine(lines[|lines| - 1]) { case Some(e) => [e] case None => [] }
  }

  /** Every entry comes from a marked line. */
  lemma {:induction false} EntriesFromMarkedLines(lines: seq<string>)
    ensures forall e :: e in Entries(lines) ==> exists line :: line in lines && Contains(line, Marker) && ParseLine(line) == Some(e)
  {
    if lines != [] {
      var front := lines[..|lines| - 1];
      EntriesFromMarkedLines(front);
      ParseLineIff(lines[|lines| - 1]);
      forall e | e in Entries(lines)
        ensures exists line :: line in lines && Contains(line, Marker) && ParseLine(line) == Some(e)
      {
        if e in Entries(front) {
          var line :| line in front && Contains(line, Marker) && ParseLine(line) == Some(e);
          assert line in lines;
        } else {
          assert lines[|lines| - 1] in lines;
        }
      }
    }
  }

  /** The reply for a log file and a limit. */
  function LogsOf(file: LogFile, limit: int): LogsReply
  {
    match file
    case LogMissing => LogsReply(false, Some(NoLogFile), [])
    case LogUnreadable(e) => LogsReply(false, Some("Error retrieving logs: " + e), [])
    case LogLines(lines) => LogsReply(true, None, Reverse(SliceFrom(Entries(SliceFrom(lines, -limit * 2)), -limit)))
  }

  /** The loop over the window: the entries of its lines in order. */
  method CollectEntries(window: seq<string>) returns (entries: seq<LogEntry>)
    ensures entries == Entries(window)
  {
    entries := [];
    var i := 0;
    while i < |window|
      invariant 0 <= i <= |window|
      invariant entries == Entries(window[..i])
    {
      assert window[..i + 1][..i] == window[..i];
      var parsed := ParseLine(window[i]);
      if parsed.Some? {
        entries := entries + [parsed.value];
      }
      i := i + 1;
    }
    assert window[..i] == window;
  }

  /** `logs.reverse()`. */
  method ReverseEntries(kept: seq<LogEntry>) returns (newestFirst: seq<LogEntry>)
    ensures newestFirst == Reverse(kept)
  {
    newestFirst := [];
    var j := 0;
    while j < |kept|
      invariant 0 <= j <= |kept|
      invariant newestFirst == Reverse(kept[..j])
    {
      assert kept[..j + 1][..j] == kept[..j];
      newestFirst := [kept[j]] + newestFirst;
      j := j + 1;
    }
    assert kept[..j] == kept;
  }

  /** `get_ai_email_logs`: collects the entries of the last `2 * limit` lines, keeps the last `limit`, reverses them. */
  method GetAiEmailLogs(file: LogFile, limit: int) returns (reply: LogsReply)
    ensures reply == LogsOf(file, limit)
  {
    match file {
      case LogMissing =>
        reply := LogsReply(false, Some(NoLogFile), []);
      case LogUnreadable(e) =>
        reply := LogsReply(false, Some("Error retrieving logs: " + e), []);
      case LogLines(lines) =>
        var entries := CollectEntries(SliceFrom(lines, -limit * 2));
        var logs := ReverseEntries(SliceFrom(entries, -limit));
        reply := LogsReply(true, None, logs);
    }
  }

  /** A positive limit bounds the number of entries returned. */
  lemma LogsBounded(file: LogFile, limit: int)
    requires 0 < limit
    ensures |LogsOf(file, limit).logs| <= limit
  {
  }

  /** The reply lists the newest entries of the window first: position `k` holds the `k`-th entry from the end. */
  lemma NewestFirst(lines: seq<string>, limit: int)
    ensures var entries := Entries(SliceFrom(lines, -limit * 2));
            var logs := LogsOf(LogLines(lines), limit).logs;
            |logs| <= |entries|
            && forall k :: 0 <= k < |logs| ==> logs[k] == entries[|entries| - 1 - k]
  {
  }

  /** A limit of zero slices nothing off: every entry of the file is returned, newest first. */
  lemma LimitZeroKeepsAll(lines: seq<string>)
    ensures LogsOf(LogLines(lines), 0).logs == Reverse(Entries(lines))
  {
  }

  /** Every returned entry was parsed from a marked line of the file. */
  lemma LogsFromMarkedLines(lines: seq<string>, limit: int)
    ensures forall e :: e in LogsOf(LogLines(lines), limit).logs ==>
              exists line :: line in lines && Contains(line, Marker) && ParseLine(line) == Some(e)
  {
    var window := SliceFrom(lines, -limit * 2);
    EntriesFromMarkedLines(window);
    var entries := Entries(window);
    var logs := LogsOf(LogLines(lines), limit).logs;
    forall e | e in logs
      ensures exists line :: line in lines && Contains(line, Marker) && ParseLine(line) == Some(e)
    {
      var k :| 0 <= k < |logs| && logs[k] == e;
      var kept := SliceFrom(entries, -limit);
      assert e == kept[|kept| - 1 - k];
      assert e in entries;
      var line :| line in window && Contains(line, Marker) && ParseLine(line) == Some(e);
      assert line in lines;
    }
  }
}
