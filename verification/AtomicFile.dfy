/** Atomic replacement of one file, as every journal and state file is written. */
module AtomicFile {
  import opened Common

  /** The call, if any, at which a write stops. */
  datatype Fault = NoFault | TempWriteFails | RenameFails | RemoveFails | SecondRenameFails | SyncFails

  /**
   * What the target file holds after each call of one write.  `overwrites` says whether the platform's
   * rename takes the place of an existing file; where it does not, the existing file is removed first
   * and the rename is tried again.
   */
  function Observed<T>(before: Option<T>, contents: T, overwrites: bool, fault: Fault): (r: seq<Option<T>>)
    ensures |r| > 0
  {
    if fault.TempWriteFails? || fault.RenameFails? then
      [before]
    else if before.None? || overwrites then
      [before, Some(contents)]
    else if fault.RemoveFails? then
      [before]
    else if fault.SecondRenameFails? then
      [before, None]
    else
      [before, None, Some(contents)]
  }

  function Final<T>(before: Option<T>, contents: T, overwrites: bool, fault: Fault): Option<T> {
    var seen := Observed(before, contents, overwrites, fault);
    seen[|seen| - 1]
  }

  /** Whether the write reports success. */
  predicate Succeeds<T>(before: Option<T>, overwrites: bool, fault: Fault) {
    match fault
    case NoFault => true
    case RemoveFails | SecondRenameFails => before.None? || overwrites
    case _ => false
  }

  /** A crash or a failure at any call leaves the old or the new contents. */
  ghost predicate OldOrNew<T(!new)>(before: Option<T>, contents: T, overwrites: bool) {
    forall fault :: forall i :: 0 <= i < |Observed(before, contents, overwrites, fault)| ==>
      Observed(before, contents, overwrites, fault)[i] in [before, Some(contents)]
  }

  /** The write is atomic exactly where the rename overwrites the file, or there is no file to replace. */
  lemma AtomicIffRenameReplaces<T(!new)>(before: Option<T>, contents: T, overwrites: bool)
    ensures OldOrNew(before, contents, overwrites) <==> overwrites || before.None?
  {
    if before.Some? && !overwrites {
      assert Observed(before, contents, overwrites, SecondRenameFails)[1] == None;
    }
  }

  /** Success means that the new contents are in place; even a failed write may have put them there. */
  lemma SuccessMeansWritten<T>(before: Option<T>, contents: T, overwrites: bool, fault: Fault)
    ensures Succeeds(before, overwrites, fault) ==> Final(before, contents, overwrites, fault) == Some(contents)
    ensures !Succeeds(before, overwrites, SyncFails) && Final(before, contents, overwrites, SyncFails) == Some(contents)
  {
  }
}
