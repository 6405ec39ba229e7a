/**
 * clearTemporaryFiles (src/index.ts:61-76): every entry of the scratch
 * directory whose modification time is more than ten minutes before the
 * moment the sweep started is deleted. The clock is read once, before the
 * listing is walked; an entry whose `stat` fails is skipped.
 */
module TempFiles {
  /** Ten minutes, in milliseconds. */
  const Lifetime := 600000

  /** What `fs.stat` reports for an entry: an error, or its modification time in milliseconds. */
  datatype Stat = StatError | Stat(mtime: int)

  /** An entry of the directory listing, with the report of its `stat`. */
  datatype Listed = Listed(name: string, stat: Stat)

  /** The deletion rule for one entry, against the time the sweep started. */
  predicate Expired(now: int, st: Stat) {
    st.Stat? && now > st.mtime + Lifetime
  }

  /** The names the sweep deletes, in listing order. */
  function Doomed(now: int, files: seq<Listed>): (r: seq<string>)
    ensures |r| <= |files|
    ensures forall x :: x in r ==> exists i :: 0 <= i < |files| && files[i].name == x && Expired(now, files[i].stat)
  {
    if files == [] then []
    else
      var last := files[|files| - 1];
      Doomed(now, files[..|files| - 1]) + (if Expired(now, last.stat) then [last.name] else [])
  }

  /** The sweep: one `stat` per listed entry, and an unlink of each expired one. */
  method ClearTemporaryFiles(now: int, files: seq<Listed>) returns (deleted: seq<string>)
    ensures deleted == Doomed(now, files)
  {
    deleted := [];
    var i := 0;
    while i < |files|
      invariant 0 <= i <= |files|
      invariant deleted == Doomed(now, files[..i])
    {
      assert files[..i + 1][..i] == files[..i];
      if Expired(now, files[i].stat) {
        deleted := deleted + [files[i].name];
      }
      i := i + 1;
    }
    assert files[..i] == files;
  }

  /** Every expired entry is deleted: together with Doomed's own contract, deletion happens iff the entry expired. */
  lemma {:induction false} ExpiredAreDoomed(now: int, files: seq<Listed>)
    ensures forall i :: 0 <= i < |files| && Expired(now, files[i].stat) ==> files[i].name in Doomed(now, files)
  {
    if files != [] {
      var init := files[..|files| - 1];
      ExpiredAreDoomed(now, init);
      forall i | 0 <= i < |files| && Expired(now, files[i].stat)
        ensures files[i].name in Doomed(now, files)
      {
        if i < |init| {
          assert files[i] == init[i];
        }
      }
    }
  }

  /** A listing swept in two parts deletes what sweeping it whole deletes. */
  lemma {:induction false} DoomedAppend(now: int, a: seq<Listed>, b: seq<Listed>)
    ensures Doomed(now, a + b) == Doomed(now, a) + Doomed(now, b)
  {
    if b != [] {
      var b' := b[..|b| - 1];
      assert (a + b)[..|a + b| - 1] == a + b';
      DoomedAppend(now, a, b');
    } else {
      assert a + b == a;
    }
  }

  /** An entry exactly ten minutes old is kept; one millisecond later it is deleted. */
  lemma TenMinutesIsKept(mtime: int)
    ensures !Expired(mtime + Lifetime, Stat(mtime))
    ensures Expired(mtime + Lifetime + 1, Stat(mtime))
  {
  }

  /** An entry whose `stat` failed is never deleted, however late the sweep. */
  lemma StatErrorIsKept(now: int, name: string)
    ensures Doomed(now, [Listed(name, StatError)]) == []
  {
    assert [Listed(name, StatError)][..0] == [];
  }
}
