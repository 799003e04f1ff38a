/**
 * The log file that is renamed, with `.1` appended to its name, when it would grow past its limit
 * (src/logging.rs). Every file operation may fail; which one does is a parameter of each write. Nothing
 * else touches the two files.
 */
module LogRotation {
  import opened Common

  type Bytes = seq<u8>

  /** The file operation of a rotation that fails, if any. */
  datatype Fault = NoFault | FlushFails | RemoveFails | RenameFails | OpenFails | SizeFails

  /** What the operating system does with a write: it takes some of the bytes or fails. */
  datatype Outcome = Takes(count: nat) | Refuses

  datatype FlushResult = Flushed | FlushFailed | FlushPanicked

  datatype WriteResult = Written(count: nat) | Failed | Panicked

  function Content(file: Option<Bytes>): Bytes {
    if file.Some? then file.value else []
  }

  ghost predicate IsSuffix(part: Bytes, whole: Bytes) {
    |part| <= |whole| && whole[|whole| - |part|..] == part
  }

  class RotatingLogFile {
    const maxBytes: nat
    var current: Option<Bytes>     // the file at `path`
    var rotated: Option<Bytes>     // the file at `rotated_path`
    var currentLen: nat
    var open: bool                 // whether there is a handle to the current file
    ghost var stream: Bytes        // all that was there at first and was written since

    /** What the two files hold is the end of the stream, with nothing missing in between. */
    ghost predicate Valid()
      reads this
    {
      && IsSuffix(Content(rotated) + Content(current), stream)
      && (open ==> current.Some? && currentLen == |current.value|)
      && (!open ==> currentLen > 0)
    }

    constructor (maxBytes: nat, current: Option<Bytes>, rotated: Option<Bytes>)
      ensures Valid() && open && this.maxBytes == maxBytes
      ensures this.current == Some(Content(current)) && this.rotated == rotated
      ensures stream == Content(rotated) + Content(current)
    {
      this.maxBytes := maxBytes;
      this.current := Some(Content(current));
      this.rotated := rotated;
      currentLen := |Content(current)|;
      open := true;
      stream := Content(rotated) + Content(current);
    }

    ghost predicate MustRotate(incoming: nat)
      reads this
    {
      incoming > 0 && currentLen > 0 && currentLen + incoming > maxBytes
    }

    /** Rotation was cut short after the rename: there is no current file, and no handle. */
    ghost predicate Broken()
      reads this
    {
      !open && current.None?
    }

    /** The rotation stops before it touches a file. */
    ghost predicate StopsEarly(fault: Fault)
      reads this
    {
      (open && fault.FlushFails?) || (rotated.Some? && fault.RemoveFails?)
    }

    method RotateIfNeeded(incoming: nat, fault: Fault) returns (ok: bool)
      requires Valid()
      modifies this
      ensures Valid() && stream == old(stream)
      ensures !old(MustRotate(incoming)) ==>
                ok && open == old(open) && current == old(current) && rotated == old(rotated) && currentLen == old(currentLen)
      // exactly how far it gets under each fault; the size of the new file is asked for last
      ensures old(MustRotate(incoming)) && old(StopsEarly(fault)) ==>
                !ok && current == old(current) && rotated == old(rotated)
      ensures old(MustRotate(incoming)) && !old(StopsEarly(fault)) && (fault.RenameFails? || old(current).None?) ==>
                !ok && current == old(current) && rotated == None
      ensures old(MustRotate(incoming)) && !old(StopsEarly(fault)) && !fault.RenameFails? && old(current).Some? ==>
                && ok == (!fault.OpenFails? && !fault.SizeFails?)
                && rotated == old(current) && current == if fault.OpenFails? then None else Some([])
      // a rotation that is cut short loses the handle
      ensures old(MustRotate(incoming)) ==> open == ok && (!ok ==> currentLen == old(currentLen))
    {
      if incoming == 0 || currentLen == 0 || currentLen + incoming <= maxBytes {
        return true;
      }
      if open {
        open := false;
        if fault.FlushFails? {
          return false;
        }
      }
      if rotated.Some? {
        if fault.RemoveFails? {
          return false;
        }
        Forget(Content(rotated), Content(current), stream);
        rotated := None;
      }
      Forget(Content(rotated), Content(current), stream);
      if fault.RenameFails? || current.None? {
        return false;
      }
      rotated, current := current, None;
      if fault.OpenFails? {
        return false;
      }
      current := Some([]);
      if fault.SizeFails? {
        return false;
      }
      currentLen := 0;
      open := true;
      return true;
    }

    /** Appends what the operating system takes of `buf`. */
    method Write(buf: Bytes, fault: Fault, outcome: Outcome) returns (r: WriteResult)
      requires Valid() && (outcome.Takes? ==> outcome.count <= |buf|)
      modifies this
      ensures Valid()
      ensures r.Written? ==> open && outcome == Takes(r.count)
      ensures stream == if r.Written? then old(stream) + buf[..r.count] else old(stream)
      // the current file stays within its limit, or holds nothing but this write
      ensures r.Written? && buf != [] ==> currentLen <= Max(maxBytes, |buf|)
      // without a fault nothing but the file that was rotated before is lost
      ensures r.Written? ==>
                if |buf| > 0 && old(currentLen) > 0 && old(currentLen) + |buf| > maxBytes then rotated == old(current) && current == Some(buf[..r.count])
                else rotated == old(rotated) && current == Some(Content(old(current)) + buf[..r.count])
      ensures fault.NoFault? && outcome.Takes? && old(open) ==> r.Written?
      // the handle is lost exactly by a rotation that is cut short; a write that does not rotate then panics
      ensures old(open) && !open ==> r.Failed? && old(MustRotate(|buf|)) && !fault.NoFault?
      ensures r.Panicked? <==> !old(open) && !(|buf| > 0 && old(currentLen) > 0 && old(currentLen) + |buf| > maxBytes)
      ensures !open ==> current.None? || current in {old(current), Some([])}
      // a write that rotates repairs it, unless there is no current file any more
      ensures !old(open) && old(MustRotate(|buf|)) && fault.NoFault? && !old(Broken()) ==> open
      ensures old(Broken()) ==> Broken() && !r.Written? && currentLen == old(currentLen)
      ensures old(Broken()) ==> rotated == if old(MustRotate(|buf|)) && !old(StopsEarly(fault)) then None else old(rotated)
      // the two ways in
      ensures old(open) && old(MustRotate(|buf|)) && !old(StopsEarly(fault)) && fault.RenameFails? ==>
                r.Failed? && !open && current == old(current) && currentLen == old(currentLen)
      ensures old(open) && old(MustRotate(|buf|)) && !old(StopsEarly(fault)) && fault.OpenFails? ==>
                r.Failed? && Broken() && rotated == old(current) && currentLen == old(currentLen)
    {
      var ok := RotateIfNeeded(|buf|, fault);
      if !ok {
        return Failed;
      }
      if !open {
        return Panicked;
      }
      if outcome.Refuses? {
        return Failed;
      }
      var taken := buf[..outcome.count];
      Append(Content(rotated), current.value, stream, taken);
      assert [] + taken == taken;
      current := Some(current.value + taken);
      currentLen := currentLen + |taken|;
      stream := stream + taken;
      return Written(outcome.count);
    }

    /** A flush changes nothing, and panics exactly if a rotation was cut short before. */
    method Flush(fails: bool) returns (r: FlushResult)
      requires Valid()
      ensures r.FlushPanicked? <==> !open
      ensures open ==> (r.Flushed? <==> !fails)
    {
      if !open {
        return FlushPanicked;
      }
      return if fails then FlushFailed else Flushed;
    }
  }

  lemma Append(a: Bytes, b: Bytes, whole: Bytes, more: Bytes)
    requires IsSuffix(a + b, whole)
    ensures IsSuffix(a + (b + more), whole + more)
  {
    assert a + (b + more) == (a + b) + more;
  }

  lemma Forget(a: Bytes, b: Bytes, whole: Bytes)
    requires IsSuffix(a + b, whole)
    ensures IsSuffix([] + b, whole) && IsSuffix(b + [], whole)
  {
    assert [] + b == b == b + [] == (a + b)[|a|..];
  }

  /** One failed rename, and the next flush, and the next line that still fits, bring the logger down. */
  method PanicAfterFailedRename(maxBytes: nat, log: Bytes, long: Bytes, short: Bytes) 
    returns (first: WriteResult, flush: FlushResult, second: WriteResult)
    requires log != [] && Rotates(|log|, maxBytes, long) && |log| + |short| <= maxBytes
    ensures first == Failed && flush == FlushPanicked && second == Panicked
  {
    var f := new RotatingLogFile(maxBytes, Some(log), None);
    first := f.Write(long, RenameFails, Takes(|long|));
    flush := f.Flush(false);
    second := f.Write(short, NoFault, Takes(|short|));
  }

  /** The write is big enough to have a log of length `len` rotated. */
  predicate Rotates(len: nat, maxBytes: nat, buf: Bytes) {
    buf != [] && len + |buf| > maxBytes
  }

  method WriteWhenBroken(f: RotatingLogFile, buf: Bytes) returns (r: WriteResult)
    requires f.Valid() && f.Broken()
    modifies f
    ensures f.Valid() && f.Broken() && !r.Written? && f.currentLen == old(f.currentLen)
    ensures f.rotated == if Rotates(f.currentLen, f.maxBytes, buf) then None else old(f.rotated)
  {
    r := f.Write(buf, NoFault, Takes(|buf|));
  }

  /** However much is written to a log without a current file, nothing arrives, and the rotated file goes at the first occasion. */
  method WritesWhenBroken(f: RotatingLogFile, later: seq<Bytes>) returns (results: seq<WriteResult>)
    requires f.Valid() && f.Broken()
    modifies f
    ensures f.Valid() && f.Broken() && f.currentLen == old(f.currentLen)
    ensures |results| == |later| && forall i | 0 <= i < |later| :: !results[i].Written?
    ensures (exists i :: 0 <= i < |later| && Rotates(f.currentLen, f.maxBytes, later[i])) ==> f.rotated.None?
  {
    results := [];
    var i := 0;
    while i < |later|
      invariant i == |results| <= |later| && f.Valid() && f.Broken() && f.currentLen == old(f.currentLen)
      invariant forall j | 0 <= j < i :: !results[j].Written?
      invariant (exists j :: 0 <= j < i && Rotates(f.currentLen, f.maxBytes, later[j])) ==> f.rotated.None?
    {
      var r := WriteWhenBroken(f, later[i]);
      results := results + [r];
      i := i + 1;
    }
  }

  /** One failure to open the new file, and nothing is ever written again; the rotated file does not survive either. */
  method NoLogAfterFailedOpen(maxBytes: nat, log: Bytes, long: Bytes, later: seq<Bytes>)
    returns (first: WriteResult, results: seq<WriteResult>, rotated: Option<Bytes>)
    requires log != [] && Rotates(|log|, maxBytes, long)
    ensures first == Failed && |results| == |later|
    ensures forall i | 0 <= i < |later| :: !results[i].Written?
    ensures (exists i :: 0 <= i < |later| && Rotates(|log|, maxBytes, later[i])) ==> rotated.None?
  {
    var f := new RotatingLogFile(maxBytes, Some(log), None);
    first := f.Write(long, OpenFails, Takes(|long|));
    results := WritesWhenBroken(f, later);
    rotated := f.rotated;
  }
}
