/**
 * The files the core reads and writes (`fileExists`, `readFile`, `writeFile`, `saveFile`), as a
 * mutable map from (folder, file name) to UTF-8 text. Folders are relative to the working directory.
 */
module FileStore {
  import opened Common

  /** A (folder, file name) pair such as ("docs", "x.md"). */
  type Key = (string, string)

  /** The files after a sequence of writes, applied in order: a later write to a key wins. */
  function ApplyWrites(files: map<Key, string>, writes: seq<(Key, string)>): map<Key, string>
    decreases |writes|
  {
    if writes == [] then files else ApplyWrites(files[writes[0].0 := writes[0].1], writes[1..])
  }

  lemma ApplyNone(files: map<Key, string>)
    ensures ApplyWrites(files, []) == files
  {
  }

  lemma ApplyOne(files: map<Key, string>, k: Key, v: string)
    ensures ApplyWrites(files, [(k, v)]) == files[k := v]
  {
    assert [(k, v)][1..] == [];
  }

  lemma ApplyTwo(files: map<Key, string>, k1: Key, v1: string, k2: Key, v2: string)
    ensures ApplyWrites(files, [(k1, v1), (k2, v2)]) == files[k1 := v1][k2 := v2]
  {
    assert [(k1, v1), (k2, v2)][1..] == [(k2, v2)];
    ApplyOne(files[k1 := v1], k2, v2);
  }

  /** Writes touch only their own keys, and add no key they do not name. */
  lemma {:induction false} ApplyWritesFrame(files: map<Key, string>, writes: seq<(Key, string)>, k: Key)
    ensures (forall i :: 0 <= i < |writes| ==> writes[i].0 != k) ==>
              (k in ApplyWrites(files, writes) <==> k in files)
              && (k in files ==> ApplyWrites(files, writes)[k] == files[k])
    ensures k in ApplyWrites(files, writes) ==> k in files || exists i :: 0 <= i < |writes| && writes[i].0 == k
    decreases |writes|
  {
    if writes != [] {
      ApplyWritesFrame(files[writes[0].0 := writes[0].1], writes[1..], k);
      if k in ApplyWrites(files, writes) && k !in files && writes[0].0 != k {
        var i :| 0 <= i < |writes[1..]| && writes[1..][i].0 == k;
        assert writes[i + 1].0 == k;
      }
    }
  }

  /** Writes never remove a file. */
  lemma {:induction false} ApplyWritesKeep(files: map<Key, string>, writes: seq<(Key, string)>, k: Key)
    requires k in files
    ensures k in ApplyWrites(files, writes)
    decreases |writes|
  {
    if writes != [] {
      ApplyWritesKeep(files[writes[0].0 := writes[0].1], writes[1..], k);
    }
  }

  class Store {
    var files: map<Key, string>

    constructor (initial: map<Key, string>)
      ensures files == initial
    {
      files := initial;
    }

    /** `fileExists(folder, name)`. */
    predicate Exists(folder: string, name: string)
      reads this
    {
      (folder, name) in files
    }

    /** `readFile(join(folder, name))`; None where the read throws. */
    function Read(folder: string, name: string): (r: Option<string>)
      reads this
      ensures r.Some? <==> Exists(folder, name)
      ensures r.Some? ==> r.value == files[(folder, name)]
    {
      if (folder, name) in files then Some(files[(folder, name)]) else None
    }

    /** `writeFile(join(folder, name), content)`: creates or replaces that one file. */
    method WriteFile(folder: string, name: string, content: string)
      modifies this
      ensures files == old(files)[(folder, name) := content]
    {
      files := files[(folder, name) := content];
    }
  }
}
