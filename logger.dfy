/** The logging setup: the line format of the file writer, the choice of old
    log files to delete, and the global level chosen from the configuration. */
module Logger {
  import opened Models

  // ------------------------------------------------------------------ caller

  /** `strings.Split(s, sep)`: the pieces between separators, always at least
      one (the empty text gives one empty piece). */
  function SplitOn(s: string, sep: char): (parts: seq<string>)
    ensures |parts| >= 1
    ensures forall k :: 0 <= k < |parts| ==> sep !in parts[k]
    ensures sep !in s ==> parts == [s]
  {
    if s == [] then [""]
    else
      var p := s[..|s| - 1];
      var parts := SplitOn(p, sep);
      var c := s[|s| - 1];
      assert s == p + [c];
      if c == sep then parts + [""]
      else parts[..|parts| - 1] + [parts[|parts| - 1] + [c]]
  }

  /** The last of the pieces. */
  function LastOf(parts: seq<string>): string
    requires |parts| >= 1
  {
    parts[|parts| - 1]
  }

  /** The last piece of a split, one character at a time: a separator starts
      a new empty piece, any other character extends the last one. */
  lemma LastPieceSnoc(s: string, sep: char)
    requires s != []
    ensures LastOf(SplitOn(s, sep)) == if s[|s| - 1] == sep then "" else LastOf(SplitOn(s[..|s| - 1], sep)) + [s[|s| - 1]]
  {
  }

  /** The last piece of a split is what follows the last separator, or all
      of the text when it holds none. */
  lemma {:induction false} LastPiece(s: string, sep: char)
    ensures |LastOf(SplitOn(s, sep))| <= |s|
    ensures var last := LastOf(SplitOn(s, sep));
      forall k :: 0 <= k < |last| ==> last[k] == s[|s| - |last| + k]
    ensures |LastOf(SplitOn(s, sep))| < |s| ==> s[|s| - |LastOf(SplitOn(s, sep))| - 1] == sep
  {
    if s != [] {
      var p, c := s[..|s| - 1], s[|s| - 1];
      LastPiece(p, sep);
      LastPieceSnoc(s, sep);
      if c != sep {
        var last, whole := LastOf(SplitOn(p, sep)), LastOf(SplitOn(s, sep));
        assert whole == last + [c];
        forall k | 0 <= k < |last|
          ensures whole[k] == s[|s| - |whole| + k]
        {
          assert whole[k] == last[k] == p[|p| - |last| + k];
        }
      }
    }
  }

  /** `funcName`: the last piece of the caller split on "/", that is what
      follows the last "/" of the caller, or the whole caller when it holds
      none. */
  function FuncName(caller: string): (name: string)
    ensures '/' !in name
    ensures |name| <= |caller| && caller[|caller| - |name|..] == name
    ensures |name| < |caller| ==> caller[|caller| - |name| - 1] == '/'
    ensures '/' !in caller ==> name == caller
  {
    LastPiece(caller, '/');
    var parts := SplitOn(caller, '/');
    assert '/' !in parts[|parts| - 1];
    var name := LastOf(parts);
    assert caller[|caller| - |name|..] == name;
    name
  }

  // --------------------------------------------------------------- timestamp

  /** `strings.ReplaceAll(s, "T", " ")`. */
  function ReplaceT(s: string): (r: string)
    ensures |r| == |s|
    ensures forall k :: 0 <= k < |s| ==> r[k] == if s[k] == 'T' then ' ' else s[k]
  {
    seq(|s|, k requires 0 <= k < |s| => if s[k] == 'T' then ' ' else s[k])
  }

  /** The timestamp column: a timestamp of 22 characters or more loses its
      'T' separators and is cut to 22; a shorter one is kept as it is. */
  function FormatTimestamp(ts: string): (r: string)
    ensures |ts| >= 22 ==> |r| == 22 && 'T' !in r
    ensures |ts| >= 22 ==> forall k :: 0 <= k < 22 ==> r[k] == if ts[k] == 'T' then ' ' else ts[k]
    ensures |ts| < 22 ==> r == ts
  {
    if |ts| >= 22 then ReplaceT(ts)[..22] else ts
  }

  /** Formatting a formatted timestamp again changes nothing. */
  lemma FormatTimestampIdempotent(ts: string)
    ensures FormatTimestamp(FormatTimestamp(ts)) == FormatTimestamp(ts)
  {
    var r := FormatTimestamp(ts);
    if |ts| >= 22 {
      assert forall k :: 0 <= k < 22 ==> r[k] != 'T';
      assert ReplaceT(r)[..22] == r;
    }
  }

  // ------------------------------------------------------------------ levels

  /** zerolog's levels. */
  datatype Level = Trace | Debug | Info | Warn | Error | Fatal | Panic | NoLevel | Disabled

  /** `Level.String()`. */
  function LevelName(l: Level): string
  {
    match l
    case Trace => "trace"
    case Debug => "debug"
    case Info => "info"
    case Warn => "warn"
    case Error => "error"
    case Fatal => "fatal"
    case Panic => "panic"
    case NoLevel => ""
    case Disabled => "disabled"
  }

  function AsciiLowerChar(c: char): char
  {
    if 'A' <= c <= 'Z' then (c as int + 32) as char else c
  }

  /** Lower-casing for the level switch. `strings.ToLower` also lowers two
      non-ASCII letters to ASCII ones: the Kelvin sign to 'k', which is in no
      level name, and the dotted capital I to 'i', which is only in "info".
      A setting that matches only through them is "info" under Go's lowering
      and unmatched here, and an unmatched setting also gives Info, so the
      outcome of the switch is the same. */
  function AsciiLower(s: string): (r: string)
    ensures |r| == |s|
    ensures forall k :: 0 <= k < |s| ==> r[k] == AsciiLowerChar(s[k])
  {
    seq(|s|, k requires 0 <= k < |s| => AsciiLowerChar(s[k]))
  }

  /** The global level `InitLogger` sets from the `LogLevel` setting. */
  function GlobalLevel(setting: string): (l: Level)
    ensures l in {Trace, Debug, Info, Warn, Error, Fatal}
  {
    match AsciiLower(setting)
    case "trace" => Trace
    case "debug" => Debug
    case "info" => Info
    case "warn" => Warn
    case "error" => Error
    case "fatal" => Fatal
    case _ => Info
  }

  /** The switch ignores case. */
  lemma GlobalLevelIgnoresCase(s: string)
    ensures GlobalLevel(AsciiLower(s)) == GlobalLevel(s)
  {
    assert AsciiLower(AsciiLower(s)) == AsciiLower(s);
  }

  /** Each of the six names selects its own level, and any other setting
      (after lower-casing) selects info. */
  lemma GlobalLevelOfNames(s: string)
    ensures forall l :: l in {Trace, Debug, Info, Warn, Error, Fatal} ==> GlobalLevel(LevelName(l)) == l
    ensures AsciiLower(s) !in {"trace", "debug", "info", "warn", "error", "fatal"} ==> GlobalLevel(s) == Info
  {
    assert AsciiLower("trace") == "trace";
    assert AsciiLower("debug") == "debug";
    assert AsciiLower("info") == "info";
    assert AsciiLower("warn") == "warn";
    assert AsciiLower("error") == "error";
    assert AsciiLower("fatal") == "fatal";
  }

  // ------------------------------------------------------------- log entries

  /** A value of the decoded JSON entry: a string, or any other JSON value
      together with the text `%v` prints for it. */
  datatype Value = Text(s: string) | Other(rendered: string)

  /** `value.(string)` with the failure ignored: "" unless it is a string. */
  function AsString(v: Value): string
  {
    if v.Text? then v.s else ""
  }

  /** `%v` of a value. */
  function Render(v: Value): string
  {
    match v
    case Text(s) => s
    case Other(r) => r
  }

  /** The keys that have columns of their own. */
  const Reserved: set<string> := {"time", "message", "level", "caller"}

  /** The field `key=value` of the last column. */
  function Field(key: string, v: Value): string
  {
    key + "=" + Render(v)
  }

  /** `keys` lists every non-reserved key of the entry exactly once. */
  ghost predicate IsKeyOrder(keys: seq<string>, entry: map<string, Value>)
  {
    && (forall k :: k in keys <==> k in entry && k !in Reserved)
    && (forall i, j :: 0 <= i < j < |keys| ==> keys[i] != keys[j])
  }

  /** The fields for the keys in the given order. */
  function FieldsIn(keys: seq<string>, entry: map<string, Value>): (fields: seq<string>)
    requires forall k :: k in keys ==> k in entry
    ensures |fields| == |keys|
    ensures forall i :: 0 <= i < |keys| ==> fields[i] == Field(keys[i], entry[keys[i]])
  {
    seq(|keys|, i requires 0 <= i < |keys| => Field(keys[i], entry[keys[i]]))
  }

  /** The loop over the entry collecting the additional fields. Go visits the
      keys of a map in no fixed order, so the order is left open: `keys` is
      the order the loop happened to take. */
  method AdditionalFields(entry: map<string, Value>) returns (fields: seq<string>, ghost keys: seq<string>)
    ensures IsKeyOrder(keys, entry)
    ensures fields == FieldsIn(keys, entry)
  {
    var pending := entry.Keys;
    fields, keys := [], [];
    while pending != {}
      invariant pending <= entry.Keys
      invariant forall k :: k in keys <==> k in entry && k !in pending && k !in Reserved
      invariant forall i, j :: 0 <= i < j < |keys| ==> keys[i] != keys[j]
      invariant fields == FieldsIn(keys, entry)
      decreases pending
    {
      assert exists k :: k in pending;
      var key :| key in pending;
      if key != "time" && key != "message" && key != "level" && key != "caller" {
        fields, keys := fields + [Field(key, entry[key])], keys + [key];
      }
      pending := pending - {key};
    }
  }

  /** `strings.Join`. */
  function Join(parts: seq<string>, sep: string): string
  {
    if parts == [] then ""
    else if |parts| == 1 then parts[0]
    else parts[0] + sep + Join(parts[1..], sep)
  }

  /** The line `"%s | %s | %s | %s | %s\n"` the file writer emits: its five
      columns, the additional fields joined by spaces in the last, joined
      by " | " and ended by a newline. */
  function FormatLine(timestamp: string, level: string, funcName: string, message: string, fields: seq<string>): (line: string)
    ensures line == Join([timestamp, level, funcName, message, Join(fields, " ")], " | ") + "\n"
  {
    var last := Join(fields, " ");
    var cols := [timestamp, level, funcName, message, last];
    assert Join(cols[4..], " | ") == last;
    assert Join(cols[3..], " | ") == message + " | " + last;
    assert Join(cols[2..], " | ") == funcName + " | " + message + " | " + last;
    assert Join(cols[1..], " | ") == level + " | " + funcName + " | " + message + " | " + last;
    timestamp + " | " + level + " | " + funcName + " | " + message + " | " + last + "\n"
  }

  /** A line ends with its newline, and an empty first column leaves it
      starting with the separator. */
  lemma FormatLineEnds(timestamp: string, level: string, funcName: string, message: string, fields: seq<string>)
    ensures var line := FormatLine(timestamp, level, funcName, message, fields);
      && |line| > 0 && line[|line| - 1] == '\n'
      && (timestamp == "" ==> |line| >= 3 && line[..3] == " | ")
  {
    var line := FormatLine(timestamp, level, funcName, message, fields);
    var rest := level + " | " + funcName + " | " + message + " | " + Join(fields, " ") + "\n";
    assert line == timestamp + " | " + rest;
    if timestamp == "" {
      assert line[..3] == (" | " + rest)[..3];
    }
  }

  /** The line of a decoded entry, with the additional fields in the given
      order; a missing time, message or caller leaves its column empty. */
  function EntryLine(level: Level, entry: map<string, Value>, keys: seq<string>): (line: string)
    requires forall k :: k in keys ==> k in entry
    ensures |line| > 0 && line[|line| - 1] == '\n'
    ensures "time" !in entry ==> |line| >= 3 && line[..3] == " | "
  {
    var timestamp := if "time" in entry then AsString(entry["time"]) else "";
    var message := if "message" in entry then AsString(entry["message"]) else "";
    var caller := if "caller" in entry then AsString(entry["caller"]) else "";
    var formatted, funcName, fields := FormatTimestamp(timestamp), FuncName(caller), FieldsIn(keys, entry);
    FormatLineEnds(formatted, LevelName(level), funcName, message, fields);
    FormatLine(formatted, LevelName(level), funcName, message, fields)
  }

  /** An entry with no keys at all (the JSON `null` or `{}`) still gives a
      line: every column but the level is empty. */
  lemma EntryLineOfEmpty(level: Level)
    ensures EntryLine(level, map[], []) == FormatLine("", LevelName(level), "", "", [])
  {
    assert FieldsIn([], map[]) == [];
    assert FormatTimestamp("") == "" && FuncName("") == "";
  }

  /** Why a write reports an error. */
  datatype WriteError = NotJson | FileError

  /** `FileWriterWithLevel`: the lines written to the rotated log file. */
  class FileWriter {
    var contents: string

    constructor ()
      ensures contents == ""
    {
      contents := "";
    }

    /** `WriteLevel`: `decoded` is what `json.Unmarshal` makes of `p` into a
        map (None for input it rejects; `null` decodes to the empty map);
        `writeFails` is an error of the file. Input that `json.Unmarshal`
        rejects is refused with a count of 0 and nothing written; otherwise
        the count is `len(p)` whatever the file does. */
    method WriteLevel(level: Level, p: seq<bv8>, decoded: Option<map<string, Value>>, writeFails: bool)
      returns (n: int, err: Option<WriteError>)
      modifies this
      ensures decoded.None? ==> n == 0 && err == Some(NotJson) && contents == old(contents)
      ensures decoded.Some? ==> n == |p|
      ensures decoded.Some? && writeFails ==> err == Some(FileError) && contents == old(contents)
      ensures decoded.Some? && !writeFails ==>
        && err == None
        && exists keys :: IsKeyOrder(keys, decoded.value) && contents == old(contents) + EntryLine(level, decoded.value, keys)
    {
      if decoded.None? {
        return 0, Some(NotJson);
      }
      var entry := decoded.value;
      var timestamp := if "time" in entry then AsString(entry["time"]) else "";
      var message := if "message" in entry then AsString(entry["message"]) else "";
      var caller := if "caller" in entry then AsString(entry["caller"]) else "";
      var funcName := FuncName(caller);
      var fields, keys := AdditionalFields(entry);
      var formatted := FormatTimestamp(timestamp);
      var line := FormatLine(formatted, LevelName(level), funcName, message, fields);
      assert line == EntryLine(level, entry, keys);
      if writeFails {
        return |p|, Some(FileError);
      }
      contents := contents + line;
      return |p|, None;
    }
  }

  // -------------------------------------------------------- log file cleanup

  /** A directory entry: its name, whether it is a directory, and its
      modification time. */
  datatype DirEntry = DirEntry(name: string, isDir: bool, mtime: int)

  predicate EndsWith(s: string, suffix: string)
  {
    |suffix| <= |s| && s[|s| - |suffix|..] == suffix
  }

  /** A candidate for deletion: a file (not a directory) named "*.log". */
  predicate IsLogFile(e: DirEntry)
  {
    !e.isDir && EndsWith(e.name, ".log")
  }

  /** The candidates, in directory order. */
  function LogFiles(entries: seq<DirEntry>): (r: seq<DirEntry>)
    ensures forall e :: e in r <==> e in entries && IsLogFile(e)
    ensures |r| <= |entries|
  {
    if entries == [] then []
    else
      var p := entries[..|entries| - 1];
      var e := entries[|entries| - 1];
      assert entries == p + [e];
      if IsLogFile(e) then LogFiles(p) + [e] else LogFiles(p)
  }

  predicate SortedByMtime(s: seq<DirEntry>)
  {
    forall i, j :: 0 <= i < j < |s| ==> s[i].mtime <= s[j].mtime
  }

  /** Every entry of `s` is at least as new as `t`. */
  predicate NoOlderThan(t: int, s: seq<DirEntry>)
  {
    forall k :: 0 <= k < |s| ==> t <= s[k].mtime
  }

  /** Inserting `x` in front of the first entry not older than it. */
  function Insert(x: DirEntry, s: seq<DirEntry>): seq<DirEntry>
  {
    if s == [] then [x]
    else if x.mtime <= s[0].mtime then [x] + s
    else [s[0]] + Insert(x, s[1..])
  }

  /** Insertion adds exactly `x`. */
  lemma {:induction false} InsertAdds(x: DirEntry, s: seq<DirEntry>)
    ensures multiset(Insert(x, s)) == multiset(s) + multiset{x}
  {
    if s != [] && x.mtime > s[0].mtime {
      assert s == [s[0]] + s[1..];
      InsertAdds(x, s[1..]);
    }
  }

  /** Insertion keeps any lower bound that `x` also respects. */
  lemma {:induction false} InsertKeepsBound(x: DirEntry, s: seq<DirEntry>, t: int)
    requires NoOlderThan(t, s) && t <= x.mtime
    ensures NoOlderThan(t, Insert(x, s))
  {
    if s != [] && x.mtime > s[0].mtime {
      assert NoOlderThan(t, s[1..]);
      InsertKeepsBound(x, s[1..], t);
      assert t <= s[0].mtime;
    }
  }

  /** Inserting into a sorted listing keeps it sorted. */
  lemma {:induction false} InsertSorted(x: DirEntry, s: seq<DirEntry>)
    requires SortedByMtime(s)
    ensures SortedByMtime(Insert(x, s))
  {
    if s != [] && x.mtime > s[0].mtime {
      var tail := s[1..];
      assert SortedByMtime(tail);
      assert NoOlderThan(s[0].mtime, tail);
      InsertSorted(x, tail);
      InsertKeepsBound(x, tail, s[0].mtime);
      PrependSorted(s[0], Insert(x, tail));
    } else if s != [] {
      PrependSorted(x, s);
    }
  }

  lemma PrependSorted(e: DirEntry, s: seq<DirEntry>)
    requires SortedByMtime(s) && NoOlderThan(e.mtime, s)
    ensures SortedByMtime([e] + s)
  {
  }

  /** `sort.Slice` by modification time, oldest first. The library's sort is
      not stable; this one is, which is one of the orders it may produce. */
  function SortByMtime(s: seq<DirEntry>): (r: seq<DirEntry>)
    ensures SortedByMtime(r)
    ensures multiset(r) == multiset(s)
  {
    if s == [] then []
    else
      assert s == [s[0]] + s[1..];
      InsertSorted(s[0], SortByMtime(s[1..]));
      InsertAdds(s[0], SortByMtime(s[1..]));
      Insert(s[0], SortByMtime(s[1..]))
  }

  /** What `deleteOldLogFiles` does: the directory cannot be read; or it
      panics (a negative limit makes the slice bound exceed the slice); or
      it removes `doomed` and leaves `kept`. */
  datatype Cleanup = ReadFailed | Panics | Removes(doomed: seq<DirEntry>, kept: seq<DirEntry>)

  /** The loop picking the log files out of the listing. */
  method CollectLogFiles(files: seq<DirEntry>) returns (logFiles: seq<DirEntry>)
    ensures logFiles == LogFiles(files)
  {
    logFiles := [];
    var i := 0;
    while i < |files|
      invariant 0 <= i <= |files|
      invariant logFiles == LogFiles(files[..i])
    {
      assert files[..i + 1][..i] == files[..i];
      if !files[i].isDir && EndsWith(files[i].name, ".log") {
        logFiles := logFiles + [files[i]];
      }
      i := i + 1;
    }
    assert files[..i] == files;
  }

  /** Cutting a sorted listing: everything before the cut is no newer than
      anything after it, and the two parts make up the whole. */
  lemma CutSorted(s: seq<DirEntry>, cut: nat)
    requires SortedByMtime(s) && cut <= |s|
    ensures forall i, j :: 0 <= i < cut && 0 <= j < |s| - cut ==> s[..cut][i].mtime <= s[cut..][j].mtime
    ensures multiset(s[..cut]) + multiset(s[cut..]) == multiset(s)
  {
    assert s == s[..cut] + s[cut..];
    forall i, j | 0 <= i < cut && 0 <= j < |s| - cut
      ensures s[..cut][i].mtime <= s[cut..][j].mtime
    {
      assert s[..cut][i] == s[i] && s[cut..][j] == s[cut + j];
    }
  }

  /** `deleteOldLogFiles`: `listing` is what `os.ReadDir` returns (None on
      error). The log files are sorted oldest first and, when there are more
      than `maxFiles`, the oldest ones beyond the limit are removed. Errors of
      the individual removals are only logged and are not modelled. */
  method DeleteOldLogFiles(listing: Option<seq<DirEntry>>, maxFiles: int) returns (r: Cleanup)
    ensures listing.None? <==> r == ReadFailed
    ensures listing.Some? && maxFiles < 0 ==> r == Panics
    ensures listing.Some? && maxFiles >= 0 ==> r.Removes?
    ensures r.Removes? ==>
      var candidates := LogFiles(listing.value);
      && |r.doomed| == (if |candidates| > maxFiles then |candidates| - maxFiles else 0)
      && multiset(r.doomed) + multiset(r.kept) == multiset(candidates)
      && (forall i, j :: 0 <= i < |r.doomed| && 0 <= j < |r.kept| ==> r.doomed[i].mtime <= r.kept[j].mtime)
  {
    if listing.None? {
      return ReadFailed;
    }
    var logFiles := CollectLogFiles(listing.value);
    var sorted := SortByMtime(logFiles);
    assert |sorted| == |logFiles| by {
      assert |multiset(sorted)| == |multiset(logFiles)|;
    }
    var cut := 0;
    if |sorted| > maxFiles {
      if maxFiles < 0 {
        return Panics;
      }
      cut := |sorted| - maxFiles;
    }
    CutSorted(sorted, cut);
    return Removes(sorted[..cut], sorted[cut..]);
  }
}
