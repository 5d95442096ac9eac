/** The weekly clean-up job: every entry of the project directory whose name ends in
    `-player-script.js` is unlinked, the successful deletions are counted, and the
    summary line depends on that count. The directory is a set of names, and the names
    whose unlink fails are a fixed part of it. */
module Cron {
  import opened JsValues
  import opened JsStrings

  const PlayerScriptSuffix: string := "-player-script.js"

  /** `/.*-player-script\.js$/` (no `m` flag): the search may start anywhere, so it
      matches exactly the names ending in the suffix. */
  predicate IsPlayerScript(name: string) {
    EndsWith(name, PlayerScriptSuffix)
  }

  /** The entries the job deletes: the player scripts whose unlink succeeds. */
  function Deletable(names: set<string>, locked: set<string>): (d: set<string>)
    ensures d <= names
    ensures forall n :: n in d <==> n in names && IsPlayerScript(n) && n !in locked
  {
    set n | n in names && IsPlayerScript(n) && n !in locked
  }

  /** A directory: its entries, and the entries that cannot be unlinked (permissions,
      a file in use). */
  class Directory {
    var names: set<string>
    const locked: set<string>

    constructor(names: set<string>, locked: set<string>)
      ensures this.names == names && this.locked == locked
    {
      this.names := names;
      this.locked := locked;
    }

    /** `fs.unlinkSync`: removes an existing entry that is not locked and reports it;
        otherwise it throws and nothing changes. */
    method Unlink(name: string) returns (removed: bool)
      modifies this
      ensures removed <==> name in old(names) && name !in locked
      ensures names == if removed then old(names) - {name} else old(names)
    {
      removed := name in names && name !in locked;
      if removed {
        names := names - {name};
      }
    }
  }

  const Summary: string := "\U{2728} Cleanup complete. "
  const DeletedPrefix: string := Summary + "Deleted "

  /** The closing line: the number of deleted files, or that nothing matched. */
  function CleanupLog(deletedCount: nat): string {
    if deletedCount > 0 then DeletedPrefix + DecimalString(deletedCount) + " files."
    else Summary + "No files matched the pattern."
  }

  /** The count is reported exactly when it is positive, and reading the number after
      "Deleted " gives it back. */
  lemma CleanupLogReportsCount(deletedCount: nat)
    ensures StartsWith(CleanupLog(deletedCount), DeletedPrefix) <==> deletedCount > 0
    ensures deletedCount > 0 ==> ParseInt(CleanupLog(deletedCount)[|DeletedPrefix|..]) == Some(deletedCount)
  {
    var line := CleanupLog(deletedCount);
    if deletedCount > 0 {
      var digits := DecimalString(deletedCount);
      assert line[..|DeletedPrefix|] == DeletedPrefix;
      assert line[|DeletedPrefix|..] == digits + " files.";
      ParseIntDecimalPrefix(digits, " files.");
      DecimalStringValue(deletedCount);
    } else {
      assert line[|Summary|] == 'N';
      assert DeletedPrefix[|Summary|] == 'D';
    }
  }

  /** What the job leaves behind: every entry that is not a player script, and the
      player scripts whose unlink failed. */
  lemma WhatStays(names: set<string>, locked: set<string>)
    ensures forall n :: n in names - Deletable(names, locked) <==>
      n in names && (!IsPlayerScript(n) || n in locked)
  {
  }

  /** The deleted entries are at most all of them. */
  lemma DeletedAtMostListed(names: set<string>, locked: set<string>)
    ensures |Deletable(names, locked)| <= |names|
  {
    var d := Deletable(names, locked);
    assert names == d + (names - d);
  }

  /** cleanupPlayerScripts: the listing is taken once, each listed player script is
      unlinked, a failed unlink is skipped, and the count of successful deletions
      chooses the closing line. Entries that are not player scripts stay. */
  method CleanupPlayerScripts(dir: Directory) returns (deletedCount: nat, log: string)
    modifies dir
    ensures dir.names == old(dir.names) - Deletable(old(dir.names), dir.locked)
    ensures deletedCount == |Deletable(old(dir.names), dir.locked)|
    ensures log == CleanupLog(deletedCount)
  {
    var files := dir.names;
    ghost var d := Deletable(files, dir.locked);
    var rest := files;
    deletedCount := 0;
    while rest != {}
      invariant rest <= files
      invariant dir.names == files - (d - rest)
      invariant deletedCount == |d - rest|
      decreases |rest|
    {
      var file :| file in rest;
      var removed := Visit(dir, file);
      assert removed <==> file in d;
      if removed {
        deletedCount := deletedCount + 1;
      }
      Processed(files, d, rest, file);
      rest := rest - {file};
    }
    assert d - rest == d;
    log := CleanupLog(deletedCount);
  }

  /** One iteration: a player script is unlinked, any other entry is left alone. */
  method Visit(dir: Directory, file: string) returns (removed: bool)
    modifies dir
    ensures removed <==> file in old(dir.names) && IsPlayerScript(file) && file !in dir.locked
    ensures dir.names == if removed then old(dir.names) - {file} else old(dir.names)
  {
    removed := false;
    if IsPlayerScript(file) {
      removed := dir.Unlink(file);
    }
  }

  /** Taking one more entry out of the unprocessed ones adds it to the processed
      deletions exactly when it is deletable. */
  lemma Processed(files: set<string>, d: set<string>, rest: set<string>, file: string)
    requires file in rest
    ensures file in d ==> files - (d - (rest - {file})) == (files - (d - rest)) - {file}
    ensures file !in d ==> files - (d - (rest - {file})) == files - (d - rest)
    ensures |d - (rest - {file})| == |d - rest| + (if file in d then 1 else 0)
  {
    if file in d {
      assert d - (rest - {file}) == (d - rest) + {file};
      assert file !in d - rest;
    } else {
      assert d - (rest - {file}) == d - rest;
    }
  }
}
