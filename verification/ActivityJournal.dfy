/** A journal that rotates through numbered backups. */
module ActivityJournal {
  import opened Common

  /** One encoded line, its newline included. */
  type Line = seq<bv8>

  function Size(file: seq<Line>): nat {
    if |file| == 0 then 0 else Size(file[..|file| - 1]) + |file[|file| - 1]|
  }

  // What the files stand for: slot 0 is the current file, slot k the k-th backup, a missing file an empty slot.

  type Slots = seq<seq<Line>>

  /** Oldest backup first, the current file last. */
  function Read(slots: Slots): seq<Line> {
    if |slots| == 0 then [] else Read(slots[1..]) + slots[0]
  }

  /** Append to the current file while it fits; otherwise every file moves up one slot and the oldest is gone. */
  function Written(slots: Slots, line: Line, maxBytes: nat): (after: Slots)
    requires |slots| > 0
    ensures |after| == |slots|
  {
    if Size(slots[0]) + |line| <= maxBytes then slots[0 := slots[0] + [line]]
    else [[line]] + slots[..|slots| - 1]
  }

  function WrittenAll(slots: Slots, lines: seq<Line>, maxBytes: nat): (after: Slots)
    requires |slots| > 0
    ensures |after| == |slots|
  {
    if |lines| == 0 then slots
    else Written(WrittenAll(slots, lines[..|lines| - 1], maxBytes), lines[|lines| - 1], maxBytes)
  }

  ghost predicate IsSuffix<T>(a: seq<T>, b: seq<T>) {
    |a| <= |b| && a == b[|b| - |a|..]
  }

  lemma SuffixOfSum<T>(a: seq<T>, b: seq<T>)
    ensures IsSuffix(b, a + b)
  {
  }

  lemma SuffixThrough<T>(a: seq<T>, b: seq<T>, c: seq<T>, t: T)
    requires IsSuffix(a, b + [t]) && IsSuffix(b, c)
    ensures IsSuffix(a, c + [t])
  {
    var i, j := |b| + 1 - |a|, |c| - |b|;
    assert c[j..] == b;
    assert (c + [t])[j..] == b + [t];
    assert (c + [t])[j..][i..] == (c + [t])[j + i..];
  }

  /** Dropping the oldest slot drops the oldest lines. */
  lemma {:induction false} ReadWithoutOldest(slots: Slots)
    requires |slots| > 0
    ensures Read(slots) == slots[|slots| - 1] + Read(slots[..|slots| - 1])
  {
    if |slots| > 1 {
      var n := |slots| - 1;
      ReadWithoutOldest(slots[1..]);
      assert slots[1..][..n - 1] == slots[..n][1..];
      assert slots[1..][n - 1] == slots[n];
    }
  }

  lemma ReadGrown(slots: Slots, line: Line)
    requires |slots| > 0
    ensures Read(slots[0 := slots[0] + [line]]) == Read(slots) + [line]
  {
    assert slots[0 := slots[0] + [line]][1..] == slots[1..];
  }

  lemma ReadRotated(kept: Slots, line: Line)
    ensures Read([[line]] + kept) == Read(kept) + [line]
  {
    assert ([[line]] + kept)[1..] == kept;
  }

  /** One append adds the line, and drops the oldest backup when it rotates. */
  lemma WrittenAddsLine(slots: Slots, line: Line, maxBytes: nat)
    requires |slots| > 0
    ensures Read(Written(slots, line, maxBytes)) ==
      (if Size(slots[0]) + |line| <= maxBytes then Read(slots) else Read(slots[..|slots| - 1])) + [line]
  {
    if Size(slots[0]) + |line| <= maxBytes {
      ReadGrown(slots, line);
    } else {
      ReadRotated(slots[..|slots| - 1], line);
    }
  }

  lemma WrittenKeepsSuffix(slots: Slots, line: Line, maxBytes: nat)
    requires |slots| > 0
    ensures IsSuffix(Read(Written(slots, line, maxBytes)), Read(slots) + [line])
  {
    var kept := Read(slots[..|slots| - 1]);
    WrittenAddsLine(slots, line, maxBytes);
    ReadWithoutOldest(slots);
    SuffixOfSum(slots[|slots| - 1], kept);
    SuffixThrough(kept + [line], kept, Read(slots), line);
  }

  /** Over any lines, reading the backups oldest first and then the current file gives the end of everything
      that was there before and was appended since. */
  lemma {:induction false} JournalIsSuffix(slots: Slots, lines: seq<Line>, maxBytes: nat)
    requires |slots| > 0
    ensures IsSuffix(Read(WrittenAll(slots, lines, maxBytes)), Read(slots) + lines)
  {
    if |lines| == 0 {
      assert Read(slots) + lines == Read(slots);
    } else {
      var n := |lines| - 1;
      var before := WrittenAll(slots, lines[..n], maxBytes);
      JournalIsSuffix(slots, lines[..n], maxBytes);
      WrittenKeepsSuffix(before, lines[n], maxBytes);
      SuffixThrough(Read(Written(before, lines[n], maxBytes)), Read(before), Read(slots) + lines[..n], lines[n]);
      assert Read(slots) + lines[..n] + [lines[n]] == Read(slots) + lines by {
        InitAndLast(lines);
      }
    }
  }

  /** Every file fits, or holds one line that alone does not. */
  ghost predicate WithinLimit(slots: Slots, maxBytes: nat) {
    forall k :: 0 <= k < |slots| ==> Size(slots[k]) <= maxBytes || |slots[k]| == 1
  }

  lemma WrittenStaysWithin(slots: Slots, line: Line, maxBytes: nat)
    requires |slots| > 0 && WithinLimit(slots, maxBytes)
    ensures WithinLimit(Written(slots, line, maxBytes), maxBytes)
  {
    var grown := slots[0] + [line];
    assert grown[..|grown| - 1] == slots[0];
  }

  lemma {:induction false} JournalStaysWithin(slots: Slots, lines: seq<Line>, maxBytes: nat)
    requires |slots| > 0 && WithinLimit(slots, maxBytes)
    ensures WithinLimit(WrittenAll(slots, lines, maxBytes), maxBytes)
  {
    if |lines| > 0 {
      var n := |lines| - 1;
      JournalStaysWithin(slots, lines[..n], maxBytes);
      WrittenStaysWithin(WrittenAll(slots, lines[..n], maxBytes), lines[n], maxBytes);
    }
  }

  /** A file is as long as its lines together. */
  lemma {:induction false} SizeOfSum(a: seq<Line>, b: seq<Line>)
    ensures Size(a + b) == Size(a) + Size(b)
    ensures |b| == 1 ==> Size(b) == |b[0]|
  {
    if |b| == 0 {
      assert a + b == a;
    } else {
      var n := |b| - 1;
      SizeOfSum(a, b[..n]);
      assert (a + b)[..|a| + n] == a + b[..n];
    }
  }

  /** Nothing moves and nothing is lost while the current file and all that is appended to it fit the limit. */
  lemma {:induction false} FittingLinesStay(slots: Slots, lines: seq<Line>, maxBytes: nat)
    requires |slots| > 0 && Size(slots[0]) + Size(lines) <= maxBytes
    ensures WrittenAll(slots, lines, maxBytes) == slots[0 := slots[0] + lines]
  {
    if |lines| == 0 {
      assert slots[0] + lines == slots[0];
    } else {
      var n := |lines| - 1;
      FittingLinesStay(slots, lines[..n], maxBytes);
      SizeOfSum(slots[0], lines[..n]);
      InitAndLast(lines);
      assert slots[0] + lines[..n] + [lines[n]] == slots[0] + lines;
    }
  }

  type Files = map<nat, seq<Line>>

  function FileAt(files: Files, k: nat): seq<Line> {
    if k in files then files[k] else []
  }

  /** A written file is read back, a removed one is empty, and the others are as before. */
  lemma FileAtAfter(files: Files, k: nat, file: seq<Line>, j: nat)
    ensures FileAt(files[k := file], j) == if j == k then file else FileAt(files, j)
    ensures FileAt(files - {k}, j) == if j == k then [] else FileAt(files, j)
  {
  }

  function SlotsOf(files: Files, backups: nat): (s: Slots)
    ensures |s| == backups + 1
    ensures forall k :: 0 <= k <= backups ==> s[k] == FileAt(files, k)
  {
    seq(backups + 1, k requires 0 <= k <= backups => FileAt(files, k))
  }

  /** Halfway through a rotation: files above `index` have moved up by one, `index` itself is free. */
  ghost predicate Shifted(files: Files, before: Files, index: nat, backups: nat) {
    && index !in files
    && (forall k: nat :: k < index ==> FileAt(files, k) == FileAt(before, k))
    && (forall k: nat :: index <= k < backups ==> FileAt(files, k + 1) == FileAt(before, k))
    && (forall k: nat :: backups < k ==> FileAt(files, k) == FileAt(before, k))
  }

  function MovedUp(files: Files, index: nat): Files {
    if index in files then files[index + 1 := files[index]] - {index} else files
  }

  lemma MoveUp(files: Files, before: Files, index: nat, backups: nat)
    requires index < backups && Shifted(files, before, index + 1, backups)
    ensures Shifted(MovedUp(files, index), before, index, backups)
  {
    var after := MovedUp(files, index);
    assert FileAt(after, index + 1) == FileAt(files, index) == FileAt(before, index);
    forall k: nat | index <= k < backups
      ensures FileAt(after, k + 1) == FileAt(before, k)
    {
      if k > index {
        assert FileAt(after, k + 1) == FileAt(files, k + 1);
      }
    }
  }

  lemma ShiftedSlots(files: Files, before: Files, backups: nat)
    requires Shifted(files, before, 0, backups)
    ensures SlotsOf(files, backups) == [[]] + SlotsOf(before, backups)[..backups]
  {
    forall k | 0 <= k <= backups
      ensures SlotsOf(files, backups)[k] == ([[]] + SlotsOf(before, backups)[..backups])[k]
    {
      if k > 0 {
        assert FileAt(files, k - 1 + 1) == FileAt(before, k - 1);
      }
    }
  }

  /** The numbered files next to the journal; only numbers up to the backup count are its own. */
  class ActivityJournal {
    const maxBytes: nat
    const backupCount: nat
    var files: Files

    constructor (files: Files, maxBytes: int, backupCount: int)
      ensures this.files == files
      ensures this.maxBytes == Max(1, maxBytes) && this.backupCount == Max(0, backupCount)
    {
      this.files, this.maxBytes, this.backupCount := files, Max(1, maxBytes), Max(0, backupCount);
    }

    method RotateIfNeeded(incoming: nat)
      modifies this
      ensures
        var before := old(SlotsOf(files, backupCount));
        SlotsOf(files, backupCount) ==
          if Size(before[0]) + incoming <= maxBytes then before else [[]] + before[..backupCount]
      ensures forall k: nat :: k > backupCount ==> FileAt(files, k) == old(FileAt(files, k))
    {
      var size := if 0 in files then Size(files[0]) else 0;
      if size + incoming <= maxBytes {
        return;
      }
      if backupCount == 0 {
        files := files - {0};
        return;
      }
      ghost var before := files;
      files := files - {backupCount};
      for index := backupCount downto 1
        invariant Shifted(files, before, index, backupCount)
      {
        MoveUp(files, before, index, backupCount);
        if index in files {
          files := files[index + 1 := files[index]] - {index};
        }
      }
      MoveUp(files, before, 0, backupCount);
      if 0 in files {
        files := files[1 := files[0]] - {0};
      }
      ShiftedSlots(files, before, backupCount);
    }

    method Append(line: Line)
      modifies this
      ensures SlotsOf(files, backupCount) == Written(old(SlotsOf(files, backupCount)), line, maxBytes)
      ensures forall k: nat :: k > backupCount ==> FileAt(files, k) == old(FileAt(files, k))
    {
      RotateIfNeeded(|line|);
      ghost var slots := SlotsOf(files, backupCount);
      files := files[0 := FileAt(files, 0) + [line]];
      assert SlotsOf(files, backupCount) == slots[0 := slots[0] + [line]];
      FirstLine([], old(SlotsOf(files, backupCount))[..backupCount], line);
    }
  }

  lemma FirstLine(empty: seq<Line>, kept: Slots, line: Line)
    requires empty == []
    ensures ([empty] + kept)[0 := empty + [line]] == [[line]] + kept
  {
    assert empty + [line] == [line];
    assert ([empty] + kept)[0 := [line]] == [[line]] + kept;
  }
}
