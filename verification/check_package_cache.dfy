/**
 * The per-package output cache of the `check` tool. It covers where a
 * package's cached output lives, which packages must be checked again, which
 * cached outputs are replayed, and the writer that copies a cargo run's output
 * into the cache and onto the console. In JSON mode the writer prints each
 * compiler message only once.
 *
 * The filesystem is not modelled. Whether a package's cache is invalid is an
 * input predicate, and a cargo run's output is the sequence of its lines.
 */
module CheckPackageCache {
  import opened CheckData
  import opened CheckParsing

  const CHECK_CACHE_DIR: string := ".check-cache"

  function CacheExtension(msgFmtJson: bool): string {
    if msgFmtJson then ".msg-fmt-json" else ".ansi"
  }

  /**
   * `package_cache_path`: the package name with the extension of the output
   * format, inside the cache directory.
   */
  function PackageCachePath(p: Package, msgFmtJson: bool): (r: string)
    ensures |r| == |CHECK_CACHE_DIR| + 1 + |PackageName(p)| + |CacheExtension(msgFmtJson)|
    ensures r[..|CHECK_CACHE_DIR| + 1] == CHECK_CACHE_DIR + "/"
    ensures r[|CHECK_CACHE_DIR| + 1..|r| - |CacheExtension(msgFmtJson)|] == PackageName(p)
    ensures r[|r| - |CacheExtension(msgFmtJson)|..] == CacheExtension(msgFmtJson)
  {
    CHECK_CACHE_DIR + "/" + PackageName(p) + CacheExtension(msgFmtJson)
  }

  /** Every package and format has its own cache file. */
  lemma PackageCachePathInjective(p: Package, json: bool, q: Package, json': bool)
    ensures PackageCachePath(p, json) == PackageCachePath(q, json') ==> p == q && json == json'
  {
    // The four paths have the lengths 35, 38, 43 and 46.
    assert |PackageName(GenericContainer)| == 17 && |PackageName(ThreadCheckedMutex)| == 20;
    assert |CacheExtension(true)| == 13 && |CacheExtension(false)| == 5;
  }

  // ------------------------------------------------------- packages to check

  /**
   * The packages `packages_to_check` returns. With `no_cache`, exactly the
   * requested packages. Otherwise, the requested packages whose cache is
   * invalid, in `all_packages` order and without repetition.
   */
  function PackagesToCheckSpec(argsPackages: seq<Package>, onSave: bool, noCache: bool,
                               cacheInvalid: (Package, bool) -> bool): (r: seq<Package>)
    ensures noCache ==> r == argsPackages
    ensures !noCache ==> forall p :: p in r <==> p in argsPackages && cacheInvalid(p, onSave)
    ensures !noCache ==> SubsequenceOf(r, AllPackages())
  {
    AllPackagesComplete();
    if noCache then argsPackages
    else KeepMembers(AllPackages(), set p | p in argsPackages && cacheInvalid(p, onSave))
  }

  /**
   * `packages_to_check`: the requested packages under `no_cache`; otherwise a
   * loop over `all_packages` that keeps the requested ones whose cache is
   * invalid. `cacheInvalid` stands for `is_package_cache_invalid`.
   */
  method PackagesToCheck(argsPackages: seq<Package>, onSave: bool, noCache: bool,
                         cacheInvalid: (Package, bool) -> bool) returns (toCheck: seq<Package>)
    ensures toCheck == PackagesToCheckSpec(argsPackages, onSave, noCache, cacheInvalid)
  {
    var msgFmtJson := onSave;
    toCheck := [];
    if noCache {
      toCheck := toCheck + argsPackages;
    } else {
      var all := AllPackages();
      ghost var stale := set p | p in argsPackages && cacheInvalid(p, onSave);
      var i := 0;
      while i < |all|
        invariant 0 <= i <= |all|
        invariant toCheck + KeepMembers(all[i..], stale) == KeepMembers(all, stale)
      {
        assert all[i..][0] == all[i] && all[i..][1..] == all[i + 1..];
        if all[i] in argsPackages && cacheInvalid(all[i], msgFmtJson) {
          toCheck := toCheck + [all[i]];
        }
        i := i + 1;
      }
    }
  }

  // ------------------------------------------------------ packages to print

  /**
   * The selection in `print_cached_checks`: nothing under `no_cache`;
   * otherwise the requested packages that were not checked, in request order.
   */
  function PackagesToPrint(argsPackages: seq<Package>, checkedPackages: seq<Package>, noCache: bool): (r: seq<Package>)
    ensures noCache ==> r == []
    ensures !noCache ==> forall p :: p in r <==> p in argsPackages && p !in checkedPackages
    ensures !noCache ==> SubsequenceOf(r, argsPackages)
  {
    if noCache then []
    else KeepMembers(argsPackages, set p | p in argsPackages && p !in checkedPackages)
  }

  /**
   * Every requested package is either checked again or has its cached output
   * replayed, never both; without `no_cache` it is checked exactly when its
   * cache is invalid.
   */
  lemma CheckedOrReplayed(argsPackages: seq<Package>, onSave: bool, noCache: bool,
                          cacheInvalid: (Package, bool) -> bool, p: Package)
    requires p in argsPackages
    ensures var toCheck := PackagesToCheckSpec(argsPackages, onSave, noCache, cacheInvalid);
            && (p in toCheck <==> p !in PackagesToPrint(argsPackages, toCheck, noCache))
            && (!noCache ==> (p in toCheck <==> cacheInvalid(p, onSave)))
  {
  }

  // ------------------------------------------------------------ cache writer

  const COMPILER_MESSAGE_PREFIX: string := "{\"reason\":\"compiler-message\""

  /** `line.starts_with(...)` the compiler-message prefix. */
  predicate IsCompilerMessage(line: string) {
    |line| >= |COMPILER_MESSAGE_PREFIX| && line[..|COMPILER_MESSAGE_PREFIX|] == COMPILER_MESSAGE_PREFIX
  }

  /** The lines the JSON-mode loop writes, given the messages already seen. */
  function JsonPass(lines: seq<string>, seen: set<string>): seq<string>
    decreases |lines|
  {
    if lines == [] then []
    else if !IsCompilerMessage(lines[0]) then [lines[0]] + JsonPass(lines[1..], seen)
    else if lines[0] in seen then JsonPass(lines[1..], seen)
    else [lines[0]] + JsonPass(lines[1..], seen + {lines[0]})
  }

  /** `messages_seen` after the JSON-mode loop. */
  function SeenAfter(lines: seq<string>, seen: set<string>): set<string>
    decreases |lines|
  {
    if lines == [] then seen
    else if IsCompilerMessage(lines[0]) then SeenAfter(lines[1..], seen + {lines[0]})
    else SeenAfter(lines[1..], seen)
  }

  /** The lines that are not compiler messages, in order. */
  function OtherLines(lines: seq<string>): seq<string>
    decreases |lines|
  {
    if lines == [] then []
    else if IsCompilerMessage(lines[0]) then OtherLines(lines[1..])
    else [lines[0]] + OtherLines(lines[1..])
  }

  /** No compiler message occurs twice. */
  ghost predicate NoRepeatedMessage(out: seq<string>) {
    forall i, j :: 0 <= i < j < |out| && IsCompilerMessage(out[i]) ==> out[i] != out[j]
  }

  /** Every line that is not a compiler message is written, in order. */
  lemma {:induction false} JsonPassKeepsOtherLines(lines: seq<string>, seen: set<string>)
    ensures OtherLines(JsonPass(lines, seen)) == OtherLines(lines)
    decreases |lines|
  {
    if lines != [] {
      var l := lines[0];
      if !IsCompilerMessage(l) {
        JsonPassKeepsOtherLines(lines[1..], seen);
        OtherLinesOfCons(l, JsonPass(lines[1..], seen));
      } else if l in seen {
        JsonPassKeepsOtherLines(lines[1..], seen);
      } else {
        JsonPassKeepsOtherLines(lines[1..], seen + {l});
        OtherLinesOfCons(l, JsonPass(lines[1..], seen + {l}));
      }
    }
  }

  lemma OtherLinesOfCons(l: string, rest: seq<string>)
    ensures OtherLines([l] + rest) == if IsCompilerMessage(l) then OtherLines(rest) else [l] + OtherLines(rest)
  {
    assert ([l] + rest)[0] == l && ([l] + rest)[1..] == rest;
  }

  /**
   * Each compiler message written was in the input and not seen before, and
   * none is written twice.
   */
  lemma {:induction false} JsonPassMessagesFresh(lines: seq<string>, seen: set<string>)
    ensures var out := JsonPass(lines, seen);
            && NoRepeatedMessage(out)
            && forall i :: 0 <= i < |out| && IsCompilerMessage(out[i]) ==> out[i] !in seen && out[i] in lines
    decreases |lines|
  {
    if lines != [] {
      var l := lines[0];
      if !IsCompilerMessage(l) || l in seen {
        JsonPassMessagesFresh(lines[1..], seen);
      } else {
        JsonPassMessagesFresh(lines[1..], seen + {l});
        var rest := JsonPass(lines[1..], seen + {l});
        var out := [l] + rest;
        forall i, j | 0 <= i < j < |out| && IsCompilerMessage(out[i])
          ensures out[i] != out[j]
        {
          if i == 0 {
            assert out[j] == rest[j - 1];
          } else {
            assert out[i] == rest[i - 1] && out[j] == rest[j - 1];
          }
        }
      }
    }
  }

  /**
   * Every compiler message of the input not seen before is written, and the
   * seen set grows by exactly the input's compiler messages.
   */
  lemma {:induction false} JsonPassComplete(lines: seq<string>, seen: set<string>)
    ensures forall l :: l in lines && IsCompilerMessage(l) && l !in seen ==> l in JsonPass(lines, seen)
    ensures SeenAfter(lines, seen) == seen + set l | l in lines && IsCompilerMessage(l)
    decreases |lines|
  {
    if lines != [] {
      var l := lines[0];
      assert forall x :: x in lines <==> x == l || x in lines[1..];
      if !IsCompilerMessage(l) {
        JsonPassComplete(lines[1..], seen);
      } else if l in seen {
        assert seen + {l} == seen;
        JsonPassComplete(lines[1..], seen);
      } else {
        JsonPassComplete(lines[1..], seen + {l});
      }
    }
  }

  /**
   * Appending the output of one JSON-mode run to a cache whose compiler
   * messages are exactly `seen` keeps every compiler message unique, and the
   * messages of the result are exactly the new seen set.
   */
  lemma AppendJsonPass(file: seq<string>, lines: seq<string>, seen: set<string>)
    requires NoRepeatedMessage(file)
    requires forall l :: l in seen <==> l in file && IsCompilerMessage(l)
    ensures NoRepeatedMessage(file + JsonPass(lines, seen))
    ensures forall l :: l in SeenAfter(lines, seen) <==> l in file + JsonPass(lines, seen) && IsCompilerMessage(l)
  {
    var out := JsonPass(lines, seen);
    var all := file + out;
    JsonPassMessagesFresh(lines, seen);
    JsonPassComplete(lines, seen);
    forall i, j | 0 <= i < j < |all| && IsCompilerMessage(all[i])
      ensures all[i] != all[j]
    {
      if j >= |file| {
        assert all[j] == out[j - |file|];
        if i >= |file| {
          assert all[i] == out[i - |file|];
        } else {
          assert all[i] in seen;
        }
      }
    }
    forall l
      ensures l in SeenAfter(lines, seen) <==> l in all && IsCompilerMessage(l)
    {
      if l in all && IsCompilerMessage(l) && l !in file {
        var k :| 0 <= k < |out| && out[k] == l;
      }
    }
  }

  /**
   * `PackageCacheWriter`: the cache file and the console, as the lines
   * written to each, and the compiler messages already written.
   */
  class PackageCacheWriter {
    /** The cache file this writer truncated on creation. */
    const path: string
    const msgFmtJson: bool
    var file: seq<string>
    var console: seq<string>
    var messagesSeen: set<string>

    /** In JSON mode, the seen messages are the compiler messages of the file, each there once. */
    ghost predicate Valid()
      reads this
    {
      if msgFmtJson then
        && NoRepeatedMessage(file)
        && forall l :: l in messagesSeen <==> l in file && IsCompilerMessage(l)
      else
        messagesSeen == {}
    }

    /** `PackageCacheWriter::new`: an empty cache file at the package's cache path. */
    constructor (package: Package, msgFmtJson: bool)
      ensures Valid()
      ensures path == PackageCachePath(package, msgFmtJson) && this.msgFmtJson == msgFmtJson
      ensures file == [] && console == [] && messagesSeen == {}
    {
      path := PackageCachePath(package, msgFmtJson);
      this.msgFmtJson := msgFmtJson;
      file := [];
      console := [];
      messagesSeen := {};
    }

    /**
     * `cache_and_print`: copy each line of the run's output to the cache
     * file and to the console. In JSON mode a compiler message already seen
     * by this writer is skipped; every other line is always copied.
     */
    method CacheAndPrint(lines: seq<string>)
      requires Valid()
      modifies this
      ensures Valid()
      ensures msgFmtJson ==>
                && file == old(file) + JsonPass(lines, old(messagesSeen))
                && console == old(console) + JsonPass(lines, old(messagesSeen))
                && messagesSeen == SeenAfter(lines, old(messagesSeen))
      ensures !msgFmtJson ==>
                file == old(file) + lines && console == old(console) + lines && messagesSeen == old(messagesSeen)
    {
      if msgFmtJson {
        CacheAndPrintJson(lines);
      } else {
        CacheAndPrintPlain(lines);
      }
    }

    /** The JSON-mode loop of `cache_and_print`: skip the compiler messages already seen. */
    method CacheAndPrintJson(lines: seq<string>)
      requires Valid() && msgFmtJson
      modifies this
      ensures Valid()
      ensures file == old(file) + JsonPass(lines, old(messagesSeen))
      ensures console == old(console) + JsonPass(lines, old(messagesSeen))
      ensures messagesSeen == SeenAfter(lines, old(messagesSeen))
    {
      AppendJsonPass(file, lines, messagesSeen);
      var i := 0;
      while i < |lines|
        invariant 0 <= i <= |lines|
        invariant file + JsonPass(lines[i..], messagesSeen) == old(file) + JsonPass(lines, old(messagesSeen))
        invariant console + JsonPass(lines[i..], messagesSeen) == old(console) + JsonPass(lines, old(messagesSeen))
        invariant SeenAfter(lines[i..], messagesSeen) == SeenAfter(lines, old(messagesSeen))
      {
        var line := lines[i];
        assert lines[i..][0] == line && lines[i..][1..] == lines[i + 1..];
        if IsCompilerMessage(line) {
          if line in messagesSeen {
            assert messagesSeen + {line} == messagesSeen;
            assert JsonPass(lines[i..], messagesSeen) == JsonPass(lines[i + 1..], messagesSeen);
          } else {
            assert JsonPass(lines[i..], messagesSeen) == [line] + JsonPass(lines[i + 1..], messagesSeen + {line});
            assert file + [line] + JsonPass(lines[i + 1..], messagesSeen + {line})
                == file + JsonPass(lines[i..], messagesSeen);
            assert console + [line] + JsonPass(lines[i + 1..], messagesSeen + {line})
                == console + JsonPass(lines[i..], messagesSeen);
            file := file + [line];
            console := console + [line];
            messagesSeen := messagesSeen + {line};
          }
        } else {
          assert JsonPass(lines[i..], messagesSeen) == [line] + JsonPass(lines[i + 1..], messagesSeen);
          assert file + [line] + JsonPass(lines[i + 1..], messagesSeen) == file + JsonPass(lines[i..], messagesSeen);
          assert console + [line] + JsonPass(lines[i + 1..], messagesSeen)
              == console + JsonPass(lines[i..], messagesSeen);
          file := file + [line];
          console := console + [line];
        }
        i := i + 1;
      }
      assert lines[i..] == [];
      assert file == old(file) + JsonPass(lines, old(messagesSeen));
      assert messagesSeen == SeenAfter(lines, old(messagesSeen));
    }

    /** The plain-mode loop of `cache_and_print`: copy every line. */
    method CacheAndPrintPlain(lines: seq<string>)
      requires Valid() && !msgFmtJson
      modifies this
      ensures Valid()
      ensures file == old(file) + lines && console == old(console) + lines && messagesSeen == old(messagesSeen)
    {
      var i := 0;
      while i < |lines|
        invariant 0 <= i <= |lines|
        invariant file == old(file) + lines[..i] && console == old(console) + lines[..i]
        invariant messagesSeen == old(messagesSeen)
      {
        file := file + [lines[i]];
        console := console + [lines[i]];
        assert lines[..i + 1] == lines[..i] + [lines[i]];
        i := i + 1;
      }
      assert lines[..|lines|] == lines;
    }
  }

  /**
   * The same compiler message from two runs on one writer is written once;
   * an ordinary line is written both times.
   */
  method DuplicateMessageScenario() returns (file: seq<string>)
    ensures file == [
      "{\"reason\":\"compiler-message\",\"id\":1}",
      "{\"reason\":\"build-finished\"}",
      "{\"reason\":\"build-finished\"}"]
  {
    var writer := new PackageCacheWriter(GenericContainer, true);
    var message := "{\"reason\":\"compiler-message\",\"id\":1}";
    var finished := "{\"reason\":\"build-finished\"}";
    assert IsCompilerMessage(message) && !IsCompilerMessage(finished);
    var run := [message, finished];
    assert run[0] == message && run[1..] == [finished];
    assert [finished][0] == finished && [finished][1..] == [];
    assert {} + {message} == {message};
    assert JsonPass([finished], {message}) == [finished];
    assert JsonPass(run, {}) == run;
    assert SeenAfter([finished], {message}) == {message};
    assert SeenAfter(run, {}) == {message};
    assert JsonPass(run, {message}) == [finished];
    writer.CacheAndPrint(run);
    writer.CacheAndPrint(run);
    file := writer.file;
  }
}
