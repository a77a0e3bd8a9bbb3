/** A directory whose writes go through a temporary file and an atomic rename.

    Every directory a crash could leave is recorded: a trace lists them in order, one for each byte
    written, rename and unlink. */
module Disk {
  import opened Basics

  /** The largest checkpoint, snapshot or state file that is kept: 64 MiB. */
  const MAX_FILE_BYTES := 67108864

  datatype Name<N> = Final(name: N) | Temp(id: nat)
  datatype File<F> = Whole(content: F) | Partial(written: nat)

  type Dir<N(==), F> = map<Name<N>, File<F>>

  /** What a reader of a published name finds; a torn file reads as nothing. */
  function Read<N(==), F>(d: Dir<N, F>, n: N): Option<F> {
    if Final(n) in d && d[Final(n)].Whole? then Some(d[Final(n)].content) else None
  }

  function Unlinked<N(==), F>(d: Dir<N, F>, n: N): Dir<N, F> {
    d - {Final(n)}
  }

  function Renamed<N(==), F>(d: Dir<N, F>, id: nat, n: N, f: F): Dir<N, F> {
    (d - {Temp(id)})[Final(n) := Whole(f)]
  }

  /** The directories of an atomic write of `size` bytes: each partial length, the whole temporary file, the rename. */
  function WriteTrace<N(==), F>(d: Dir<N, F>, id: nat, n: N, f: F, size: nat): seq<Dir<N, F>> {
    seq(size + 2, k requires 0 <= k < size + 2 =>
      if k < size then d[Temp(id) := Partial(k)]
      else if k == size then d[Temp(id) := Whole(f)]
      else Renamed(d, id, n, f))
  }

  /** A write that fails after `done` bytes, and whose temporary file is then removed. */
  function FailTrace<N(==), F>(d: Dir<N, F>, id: nat, done: nat): seq<Dir<N, F>> {
    seq(done + 2, k requires 0 <= k < done + 2 => if k <= done then d[Temp(id) := Partial(k)] else d - {Temp(id)})
  }

  /** Until its rename, an atomic write is invisible; the rename publishes exactly the new content. */
  lemma WriteIsAtomic<N, F>(d: Dir<N, F>, id: nat, n: N, f: F, size: nat, k: nat, m: N)
    requires k < size + 2
    ensures
      Read(WriteTrace(d, id, n, f, size)[k], m) == if k == size + 1 && m == n then Some(f) else Read(d, m)
  {
    var d' := WriteTrace(d, id, n, f, size)[k];
    if k == size + 1 {
      assert d' == Renamed(d, id, n, f);
      assert m != n ==> Final(m) != Final(n);
    } else {
      assert Final(m) != Temp(id);
      assert Final(m) in d' <==> Final(m) in d;
    }
  }

  class Directory<N(==), F> {
    var files: Dir<N, F>
    /** Every directory since creation, oldest first. */
    ghost var log: seq<Dir<N, F>>

    constructor ()
      ensures files == map[] && log == [map[]]
    {
      files := map[];
      log := [map[]];
    }

    method Set(name: Name<N>, file: File<F>)
      modifies this
      ensures files == old(files)[name := file] && log == old(log) + [files]
    {
      files := files[name := file];
      log := log + [files];
    }

    method Unlink(n: N)
      modifies this
      ensures files == Unlinked(old(files), n) && log == old(log) + [files]
    {
      files := files - {Final(n)};
      log := log + [files];
    }

    /** `_write_atomic` and the writing part of `_save`. */
    method WriteAtomic(id: nat, n: N, f: F, size: nat)
      modifies this
      ensures files == Renamed(old(files), id, n, f)
      ensures log == old(log) + WriteTrace(old(files), id, n, f, size)
    {
      ghost var d, before := files, log;
      ghost var trace := WriteTrace(d, id, n, f, size);
      for k := 0 to size
        invariant k == 0 ==> files == d
        invariant k > 0 ==> files == d[Temp(id) := Partial(k - 1)]
        invariant log == before + trace[..k]
      {
        Set(Temp(id), Partial(k));
        assert files == trace[k] && trace[..k + 1] == trace[..k] + [trace[k]];
      }
      Set(Temp(id), Whole(f));
      assert files == trace[size] && trace[..size + 1] == trace[..size] + [trace[size]];
      files := (files - {Temp(id)})[Final(n) := Whole(f)];
      assert files == Renamed(d, id, n, f);
      log := log + [files];
      assert trace == trace[..size + 1] + [trace[size + 1]];
    }

    /** A write that meets a full disk after `done` bytes and removes its temporary file. */
    method WriteFails(id: nat, done: nat)
      modifies this
      ensures files == old(files) - {Temp(id)}
      ensures log == old(log) + FailTrace(old(files), id, done)
    {
      ghost var d, before := files, log;
      ghost var trace := FailTrace(d, id, done);
      for k := 0 to done + 1
        invariant k == 0 ==> files == d
        invariant k > 0 ==> files == d[Temp(id) := Partial(k - 1)]
        invariant log == before + trace[..k]
      {
        Set(Temp(id), Partial(k));
        assert files == trace[k] && trace[..k + 1] == trace[..k] + [trace[k]];
      }
      files := files - {Temp(id)};
      assert files == d - {Temp(id)} == trace[done + 1];
      log := log + [files];
      assert trace == trace[..done + 1] + [trace[done + 1]];
    }
  }
}
