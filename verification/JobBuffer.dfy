/** JobBuffer: captured lines on their way to disk, flushed in batches. */
module JobBuffers {
  import opened Options
  import opened JobFiles

  /** Lines between disk flushes. */
  const FLUSH_BATCH := 50

  class JobBuffer {
    var pending: seq<string>
    var lineCount: nat
    var isOpen: bool
    /** The text of current.gcode, and whether there is a current.meta.json. */
    var current: Option<string>
    var currentMeta: bool
    var finalized: bool
    var discarded: bool
    /** Every line written so far. */
    ghost var lines: seq<string>

    /** While the file is open, it and the pending lines make up the whole job; fewer than a
        batch of lines are off the disk. */
    ghost predicate Valid()
      reads this
    {
      && |pending| < FLUSH_BATCH
      && |pending| <= lineCount == |lines|
      && (isOpen ==> current.Some? && current.value + Concat(pending) == FileText(lines))
    }

    ghost predicate Open()
      reads this
    {
      Valid() && isOpen
    }

    /** An earlier capture may have left files behind. */
    constructor ()
      ensures Valid() && lines == [] && !isOpen && !finalized && !discarded
    {
      pending, lineCount, isOpen, finalized, discarded, lines := [], 0, false, false, false, [];
      current, currentMeta := *, *;
    }

    /** Create or truncate current.gcode; `possible` says whether the file system lets it. */
    method OpenFile(possible: bool) returns (ok: bool)
      requires Valid() && lines == [] && !isOpen
      modifies this
      ensures Valid() && lines == [] && lineCount == 0
      ensures ok == possible == isOpen
      ensures current == (if ok then Some("") else old(current)) && currentMeta == old(currentMeta)
      ensures finalized == old(finalized) && discarded == old(discarded)
    {
      ok := possible;
      if ok { isOpen, current := true, Some(""); }
    }

    method WriteLine(line: string)
      requires Valid()
      modifies this
      ensures Valid() && lines == old(lines) + [line] && isOpen == old(isOpen) && currentMeta == old(currentMeta)
      ensures finalized == old(finalized) && discarded == old(discarded)
      ensures |old(pending)| + 1 < 50 || !isOpen ==> current == old(current)
      ensures |old(pending)| + 1 == 50 && isOpen ==> current == Some(FileText(lines))
    {
      ConcatAppend(pending, [line + "\n"]);
      FileTextAppend(lines, [line]);
      assert Concat([line + "\n"]) == line + "\n" == FileText([line]);
      if isOpen {
        assert current.value + Concat(pending + [line + "\n"]) == (current.value + Concat(pending)) + (line + "\n");
      }
      pending := pending + [line + "\n"];
      lineCount := lineCount + 1;
      lines := lines + [line];
      if |pending| >= FLUSH_BATCH { Flush(); }
    }

    /** Move what is pending to the file; without an open file it is dropped. */
    method Flush()
      requires |pending| <= FLUSH_BATCH && |pending| <= lineCount == |lines|
      requires isOpen ==> current.Some? && current.value + Concat(pending) == FileText(lines)
      modifies this
      ensures Valid() && pending == [] && lines == old(lines) && lineCount == old(lineCount)
      ensures isOpen == old(isOpen) && currentMeta == old(currentMeta)
      ensures current == if isOpen then Some(FileText(lines)) else old(current)
      ensures finalized == old(finalized) && discarded == old(discarded)
    {
      if pending == [] {
        assert isOpen ==> current.value + Concat(pending) == current.value;
        return;
      }
      var data := Concat(pending);
      pending := [];
      if isOpen { current := Some(current.value + data); }
    }

    /** Flush, close and archive: the archived file holds exactly the lines written. A buffer that
        was never opened archives whatever file was left. */
    method Finalize() returns (archived: Option<string>, count: nat)
      requires Valid()
      modifies this
      ensures Valid() && lines == old(lines) && !isOpen && current.None? && finalized
      ensures archived == if old(isOpen) then Some(FileText(lines)) else old(current)
      ensures count == |lines| && currentMeta == old(currentMeta) && discarded == old(discarded)
    {
      Flush();
      count := lineCount;
      isOpen := false;
      archived, current := current, None;
      finalized := true;
    }

    /** Close, and delete current.gcode and current.meta.json. */
    method Discard()
      requires Valid()
      modifies this
      ensures Valid() && lines == old(lines) && !isOpen && discarded && finalized == old(finalized)
      ensures current.None? && !currentMeta
    {
      discarded := true;
      isOpen := false;
      current, currentMeta := None, false;
    }
  }
}
