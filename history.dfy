/**
 * The conversation-history commands of src/cli.ts: `getAllMessages`, which
 * lists the transcripts of the history directory, and the loop of
 * `history clear`. Directory listings are given as sequences in the order
 * `readdirSync` returns them; reading and parsing a file is an oracle that
 * yields a JSON value or a syntax error.
 */
module History {
  import opened Wrappers
  import opened Messages
  import opened ChatSession

  predicate EndsWith(s: string, suffix: string) {
    |suffix| <= |s| && s[|s| - |suffix|..] == suffix
  }

  /** The names `getAllMessages` reads: ending in ".json" and not "config.json". */
  predicate IsTranscriptName(name: string) {
    EndsWith(name, ".json") && name != "config.json"
  }

  /** The outcome of `JSON.parse(fs.readFileSync(file))`. */
  datatype FileRead = Parsed(json: Json) | SyntaxError

  datatype FileEntry = FileEntry(name: string, read: FileRead)

  /** One listed conversation (the date shown for it is derived from `file`). */
  datatype HistoryItem = HistoryItem(file: string, messages: seq<Message>)

  /** The valid transcripts, and the files reported as corrupted, both in directory order. */
  datatype Listing = Listing(items: seq<HistoryItem>, corrupted: seq<string>)

  /**
   * What `getAllMessages` returns for a directory listing: `Err(name)` when
   * reading `name` throws a syntax error (it is not caught), otherwise the
   * listing of schema-valid transcripts and of skipped corrupted files.
   */
  function Listed(files: seq<FileEntry>): Result<Listing, string>
  {
    if files == [] then Ok(Listing([], []))
    else
      match Listed(files[..|files| - 1])
      case Err(name) => Err(name)
      case Ok(l) => Visit(l, files[|files| - 1])
  }

  /** The effect of one directory entry on the listing built so far. */
  function Visit(l: Listing, f: FileEntry): Result<Listing, string> {
    if !IsTranscriptName(f.name) then Ok(l)
    else match f.read
      case SyntaxError => Err(f.name)
      case Parsed(j) =>
        match ValidateArray(j)
        case None => Ok(Listing(l.items, l.corrupted + [f.name]))
        case Some(ms) => Ok(Listing(l.items + [HistoryItem(f.name, ms)], l.corrupted))
  }

  /** `getAllMessages()`. */
  method GetAllMessages(files: seq<FileEntry>) returns (r: Result<Listing, string>)
    ensures r == Listed(files)
  {
    var items: seq<HistoryItem> := [];
    var corrupted: seq<string> := [];
    var i := 0;
    while i < |files|
      invariant 0 <= i <= |files|
      invariant Listed(files[..i]) == Ok(Listing(items, corrupted))
    {
      var f := files[i];
      assert files[..i + 1][..i] == files[..i];
      if !(EndsWith(f.name, ".json") && f.name != "config.json") {
        i := i + 1;
        continue;
      }
      if f.read.SyntaxError? {
        ListedStops(files, i + 1);
        return Err(f.name);
      }
      var parsed := ValidateArray(f.read.json);
      if parsed.None? {
        corrupted := corrupted + [f.name];
        i := i + 1;
        continue;
      }
      items := items + [HistoryItem(f.name, parsed.value)];
      i := i + 1;
    }
    assert files[..i] == files;
    r := Ok(Listing(items, corrupted));
  }

  /** Once reading a file has thrown, later entries change nothing. */
  lemma {:induction false} ListedStops(files: seq<FileEntry>, n: nat)
    requires n <= |files| && Listed(files[..n]).Err?
    ensures Listed(files) == Listed(files[..n])
    decreases |files| - n
  {
    if n < |files| {
      assert files[..n + 1][..n] == files[..n];
      ListedStops(files, n + 1);
    } else {
      assert files[..n] == files;
    }
  }

  /** The listing fails exactly when some transcript name holds a JSON syntax error. */
  lemma {:induction false} ListedFailsIff(files: seq<FileEntry>)
    ensures Listed(files).Err? <==>
      exists i :: 0 <= i < |files| && IsTranscriptName(files[i].name) && files[i].read.SyntaxError?
  {
    if files != [] {
      var init := files[..|files| - 1];
      ListedFailsIff(init);
      assert forall i :: 0 <= i < |init| ==> init[i] == files[i];
    }
  }

  /** Everything listed comes from a transcript name; nothing is listed twice over. */
  lemma {:induction false} ListedNames(files: seq<FileEntry>)
    ensures Listed(files).Ok? ==>
      var l := Listed(files).value;
      |l.items| + |l.corrupted| <= |files|
      && (forall k :: 0 <= k < |l.items| ==> IsTranscriptName(l.items[k].file))
      && (forall k :: 0 <= k < |l.corrupted| ==> IsTranscriptName(l.corrupted[k]))
  {
    if files != [] {
      ListedNames(files[..|files| - 1]);
    }
  }

  /** Listing is compositional: a directory split in two lists as its parts, in order. */
  lemma {:induction false} ListedAppend(xs: seq<FileEntry>, ys: seq<FileEntry>)
    requires Listed(xs).Ok? && Listed(ys).Ok?
    ensures Listed(xs + ys) ==
      Ok(Listing(Listed(xs).value.items + Listed(ys).value.items,
                 Listed(xs).value.corrupted + Listed(ys).value.corrupted))
  {
    if ys == [] {
      assert xs + ys == xs;
      var a := Listed(xs).value;
      assert a.items + [] == a.items && a.corrupted + [] == a.corrupted;
    } else {
      var init := ys[..|ys| - 1];
      var f := ys[|ys| - 1];
      assert (xs + ys)[..|xs + ys| - 1] == xs + init;
      assert (xs + ys)[|xs + ys| - 1] == f;
      assert Listed(init).Ok?;
      ListedAppend(xs, init);
      var a, b := Listed(xs).value, Listed(init).value;
      assert Listed(ys) == Visit(b, f);
      assert Listed(xs + ys) == Visit(Listing(a.items + b.items, a.corrupted + b.corrupted), f);
      VisitShift(a, b, f);
    }
  }

  /** Visiting an entry after a longer listing extends it in the same way. */
  lemma VisitShift(a: Listing, b: Listing, f: FileEntry)
    requires Visit(b, f).Ok?
    ensures Visit(Listing(a.items + b.items, a.corrupted + b.corrupted), f)
         == Ok(Listing(a.items + Visit(b, f).value.items, a.corrupted + Visit(b, f).value.corrupted))
  {
    if IsTranscriptName(f.name) && f.read.Parsed? {
      match ValidateArray(f.read.json)
      case None =>
        assert a.corrupted + b.corrupted + [f.name] == a.corrupted + (b.corrupted + [f.name]);
      case Some(ms) =>
        assert a.items + b.items + [HistoryItem(f.name, ms)] == a.items + (b.items + [HistoryItem(f.name, ms)]);
    }
  }

  /** A single entry: a valid transcript is listed, an invalid one reported, anything else ignored. */
  lemma ListedOne(f: FileEntry)
    ensures Listed([f]) == Visit(Listing([], []), f)
  {
    assert [f][..0] == [];
  }

  // ---- history clear ----

  /** An entry of the configuration directory. */
  datatype DirEntry = DirEntry(name: string, isDirectory: bool)

  /** The entries that `history clear` means to delete: all but the one whose trimmed name is "config.json". */
  function Removable(entries: seq<DirEntry>): (names: seq<string>)
    ensures forall k :: 0 <= k < |names| ==> Trim(names[k]) != "config.json"
  {
    if entries == [] then []
    else
      var e := entries[|entries| - 1];
      Removable(entries[..|entries| - 1]) + (if Trim(e.name) == "config.json" then [] else [e.name])
  }

  /**
   * The loop of `history clear` as written: it walks the configuration
   * directory, skips "config.json" and unlinks every other entry; unlinking
   * a directory throws, which ends the loop. Gives the names unlinked and the
   * entry whose unlinking threw, if any.
   */
  function Cleared(entries: seq<DirEntry>): (seq<string>, Option<string>) {
    if entries == [] then ([], None)
    else
      var before := Cleared(entries[..|entries| - 1]);
      var e := entries[|entries| - 1];
      if before.1.Some? || IsConfigFile(e.name) then before
      else if e.isDirectory then (before.0, Some(e.name))
      else (before.0 + [e.name], None)
  }

  /** `file.trim() === 'config.json'`. */
  predicate IsConfigFile(name: string) {
    Trim(name) == "config.json"
  }

  method ClearHistory(entries: seq<DirEntry>) returns (removed: seq<string>, failed: Option<string>)
    ensures (removed, failed) == Cleared(entries)
  {
    removed, failed := [], None;
    var i := 0;
    while i < |entries|
      invariant 0 <= i <= |entries|
      invariant Cleared(entries[..i]) == (removed, None)
    {
      var e := entries[i];
      assert entries[..i + 1][..i] == entries[..i];
      if IsConfigFile(e.name) {
        i := i + 1;
        continue;
      }
      if e.isDirectory {
        failed := Some(e.name);
        assert Cleared(entries[..i + 1]) == (removed, failed);
        ClearedStops(entries, i + 1);
        return;
      }
      removed := removed + [e.name];
      i := i + 1;
    }
    assert entries[..i] == entries;
  }

  /** Once an unlink has thrown, later entries change nothing. */
  lemma {:induction false} ClearedStops(entries: seq<DirEntry>, n: nat)
    requires n <= |entries| && Cleared(entries[..n]).1.Some?
    ensures Cleared(entries) == Cleared(entries[..n])
    decreases |entries| - n
  {
    if n < |entries| {
      assert entries[..n + 1][..n] == entries[..n];
      ClearedStops(entries, n + 1);
    } else {
      assert entries[..n] == entries;
    }
  }

  /** "config.json" is never unlinked. */
  lemma {:induction false} ClearedKeepsConfig(entries: seq<DirEntry>)
    ensures forall k :: 0 <= k < |Cleared(entries).0| ==> Trim(Cleared(entries).0[k]) != "config.json"
  {
    if entries != [] {
      ClearedKeepsConfig(entries[..|entries| - 1]);
    }
  }

  /** An entry that `history clear` would unlink but cannot. */
  predicate Blocks(e: DirEntry) {
    e.isDirectory && !IsConfigFile(e.name)
  }

  /** The loop fails exactly when the directory holds a directory other than "config.json". */
  lemma {:induction false} ClearedFailsIff(entries: seq<DirEntry>)
    ensures Cleared(entries).1.Some? <==> exists i :: 0 <= i < |entries| && Blocks(entries[i])
  {
    if entries != [] {
      var init := entries[..|entries| - 1];
      var e := entries[|entries| - 1];
      ClearedFailsIff(init);
      if exists i :: 0 <= i < |init| && Blocks(init[i]) {
        var i :| 0 <= i < |init| && Blocks(init[i]);
        assert entries[i] == init[i];
      } else if Blocks(e) {
        assert Blocks(entries[|entries| - 1]);
      } else {
        forall i | 0 <= i < |entries| ensures !Blocks(entries[i]) {
          if i < |init| { assert entries[i] == init[i]; }
        }
      }
    }
  }

  /** When the loop does not throw it has removed every entry other than "config.json". */
  lemma {:induction false} ClearedRemovesAll(entries: seq<DirEntry>)
    ensures Cleared(entries).1.None? ==> Cleared(entries).0 == Removable(entries)
  {
    if entries != [] {
      ClearedRemovesAll(entries[..|entries| - 1]);
    }
  }

  /**
   * The configuration directory as set up at start-up holds "config.json"
   * and the "history" directory: clearing it throws on "history" and no
   * transcript is removed, whatever the listing order.
   */
  lemma ClearFailsOnBootstrappedDirectory(entries: seq<DirEntry>)
    requires DirEntry("history", true) in entries
    ensures Cleared(entries).1.Some?
  {
    var i :| 0 <= i < |entries| && entries[i] == DirEntry("history", true);
    assert Trim("history") == "history" by {
      TrimPadded("", "history", "");
      assert "" + "history" + "" == "history";
    }
    ClearedFailsIff(entries);
  }

  /**
   * The evidently intended clear: every entry but "config.json" is removed,
   * directories recursively, so the history directory goes too.
   */
  method ClearConfigDirectory(entries: seq<DirEntry>) returns (removed: seq<string>)
    ensures removed == Removable(entries)
  {
    removed := [];
    var i := 0;
    while i < |entries|
      invariant 0 <= i <= |entries|
      invariant removed == Removable(entries[..i])
    {
      var e := entries[i];
      assert entries[..i + 1][..i] == entries[..i];
      if Trim(e.name) != "config.json" {
        removed := removed + [e.name];
      }
      i := i + 1;
    }
    assert entries[..i] == entries;
  }

  /** The intended clear removes every entry other than "config.json", and only those. */
  lemma {:induction false} RemovableExactly(entries: seq<DirEntry>)
    ensures forall i :: 0 <= i < |entries| && Trim(entries[i].name) != "config.json" ==> entries[i].name in Removable(entries)
    ensures forall n :: n in Removable(entries) ==> exists i :: 0 <= i < |entries| && entries[i].name == n
  {
    if entries != [] {
      var init := entries[..|entries| - 1];
      RemovableExactly(init);
      assert forall i :: 0 <= i < |init| ==> init[i] == entries[i];
    }
  }
}
