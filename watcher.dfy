/**
 * The arrival watcher's deterministic pieces: which paths are candidates,
 * the debounce test, the stability wait and the bounded-retry relocation
 * of a candidate onto the canonical slot.
 */
module Watcher {
  import opened Common
  import opened PosixPath
  import opened Files

  /** `image_name`: the canonical slot's file name. */
  const ImageName: Path := "latest.jpg"

  /** At most this many size polls (0.25 s apart) before proceeding anyway. */
  const PollLimit: nat := 40

  /** The canonical slot inside the watched directory. */
  function Canonical(watchDir: Path): Path
  {
    Join(watchDir, ImageName)
  }

  /**
   * The handler acts on a path only when it lies directly in the watched
   * directory, ends in ".jpg" in any case, and is not the canonical file.
   */
  predicate IsCandidate(src: Path, watchDir: Path)
  {
    Dirname(src) == watchDir && HasJpgSuffix(src) && Basename(src) != ImageName
  }

  /** For a file name in a normal directory, the candidate rule is a rule on the name alone. */
  lemma CandidateByName(watchDir: Path, name: Path)
    requires IsNormalDir(watchDir)
    requires name != [] && '/' !in name
    ensures IsCandidate(Join(watchDir, name), watchDir) <==> HasJpgSuffix(name) && name != ImageName
  {
    JoinSplits(watchDir, name);
    JpgSuffixOfJoin(watchDir, name);
  }

  /** No candidate is the canonical slot, so relocation never moves a file onto itself. */
  lemma CandidateIsNotCanonical(src: Path, watchDir: Path)
    requires IsCandidate(src, watchDir)
    ensures src != Canonical(watchDir)
  {
    BasenameOfJoin(watchDir, ImageName);
  }

  /**
   * The debounce test `if last and (now - last) < window`: a recorded time
   * that is not zero (zero is falsy) and lies less than the window before now.
   * Times are milliseconds.
   */
  predicate IsRecent(recent: map<Path, int>, src: Path, now: int, windowMs: int)
  {
    src in recent && recent[src] != 0 && now - recent[src] < windowMs
  }

  /** One `os.path.getsize` poll: a size, or None when it raised OSError (counted as -1). */
  function SizeOf(poll: Option<nat>): int
  {
    if poll.None? then -1 else poll.value
  }

  /** Poll `i` saw a positive size equal to the poll before it. */
  predicate SettledAt(polls: seq<Option<nat>>, i: nat)
    requires 1 <= i < |polls|
  {
    SizeOf(polls[i]) > 0 && SizeOf(polls[i]) == SizeOf(polls[i - 1])
  }

  /**
   * The stability wait. `polls[i]` is what the i-th size poll returns.
   * Reports stable exactly when some poll among the first 40 settles, and
   * `used` counts the polls made: up to and including the first settling
   * one, or all 40. The first poll never settles (the previous size starts at -1).
   */
  method WaitForStable(polls: seq<Option<nat>>) returns (stable: bool, used: nat)
    requires |polls| >= PollLimit
    ensures used <= PollLimit
    ensures stable <==> exists i :: 1 <= i < PollLimit && SettledAt(polls, i)
    ensures stable ==> 2 <= used && SettledAt(polls, used - 1)
    ensures stable ==> forall i :: 1 <= i < used - 1 ==> !SettledAt(polls, i)
    ensures !stable ==> used == PollLimit
  {
    stable := false;
    used := 0;
    var prev := -1;
    while used < PollLimit
      invariant used <= PollLimit
      invariant prev == if used == 0 then -1 else SizeOf(polls[used - 1])
      invariant forall i :: 1 <= i < used ==> !SettledAt(polls, i)
    {
      var size := SizeOf(polls[used]);
      if size > 0 && size == prev {
        assert SettledAt(polls, used);
        stable := true;
        used := used + 1;
        return;
      }
      prev := size;
      used := used + 1;
    }
  }

  /**
   * What one relocation attempt meets: whether removing an existing
   * canonical file succeeds (a failure is swallowed), whether the move
   * succeeds, and the clock reading taken after a successful move.
   */
  datatype Attempt = Attempt(removeOk: bool, moveOk: bool, clock: int)

  /** The canonical file is gone after the failed attempts exactly when one of them removed it. */
  function AfterFailures(fs: FileSystem, target: Path, attempts: seq<Attempt>, n: nat): FileSystem
    requires n <= |attempts|
  {
    if target in fs && exists j :: 0 <= j < n && attempts[j].removeOk then fs - {target} else fs
  }

  /**
   * The retry loop: at most `limit` attempts, each first removing an
   * existing target (best effort) and then moving `src` onto it. The first
   * attempt whose move succeeds while the source exists ends the loop with
   * the source's content in the target and the source name gone. When every
   * attempt fails, the only change is that an old target may have been removed.
   */
  method Relocate(fs: FileSystem, src: Path, target: Path, attempts: seq<Attempt>, limit: nat)
    returns (result: FileSystem, moved: Option<nat>)
    requires src != target
    requires limit <= |attempts|
    ensures moved.Some? <==> src in fs && exists k :: 0 <= k < limit && attempts[k].moveOk
    ensures moved.Some? ==> moved.value < limit && attempts[moved.value].moveOk
    ensures moved.Some? ==> forall k :: 0 <= k < moved.value ==> !attempts[k].moveOk
    ensures moved.Some? ==> src in fs && result == Move(fs, src, target)
    ensures moved.None? ==> result == AfterFailures(fs, target, attempts, limit)
  {
    result := fs;
    moved := None;
    var k := 0;
    while k < limit
      invariant k <= limit
      invariant result == AfterFailures(fs, target, attempts, k)
      invariant src in fs ==> forall j :: 0 <= j < k ==> !attempts[j].moveOk
    {
      var a := attempts[k];
      if target in result && a.removeOk {
        result := result - {target};
      }
      assert src in result <==> src in fs;
      if a.moveOk && src in result {
        assert result[src] == fs[src];
        result := Move(result, src, target);
        assert result == Move(fs, src, target);
        moved := Some(k);
        return;
      }
      k := k + 1;
    }
  }

  /** Relocating a source that does not exist never succeeds and never puts anything else in the slot. */
  lemma MissingSourceNeverFillsSlot(fs: FileSystem, src: Path, target: Path, attempts: seq<Attempt>, limit: nat)
    requires src !in fs && limit <= |attempts|
    ensures target in AfterFailures(fs, target, attempts, limit) ==> target in fs
    ensures target in AfterFailures(fs, target, attempts, limit) ==>
              AfterFailures(fs, target, attempts, limit)[target] == fs[target]
    ensures src !in AfterFailures(fs, target, attempts, limit)
  {
  }

  /**
   * Every attempt removes an existing canonical file before it tries the
   * move, whether or not the source still exists: a notification for a
   * file that has vanished deletes the image already waiting in the slot.
   */
  lemma MissingSourceEmptiesSlot(fs: FileSystem, src: Path, target: Path, attempts: seq<Attempt>, limit: nat, j: nat)
    requires src !in fs && target in fs
    requires j < limit <= |attempts| && attempts[j].removeOk
    ensures target !in AfterFailures(fs, target, attempts, limit)
  {
  }

  /** The smallest instance: a slot holding content 7, no source, one attempt whose removal succeeds. */
  lemma LateNotificationExample()
    ensures AfterFailures(map["/w/latest.jpg" := 7], "/w/latest.jpg", [Attempt(true, false, 0)], 1) == map[]
  {
    MissingSourceEmptiesSlot(map["/w/latest.jpg" := 7], "/w/a.jpg", "/w/latest.jpg", [Attempt(true, false, 0)], 1, 0);
  }
}
