/** The upload page (src/pages/DocumentUpload.tsx): a queue of at most five
    file entries, each with a status and an integer progress. A drop appends
    a batch or rejects it whole; each entry's progress timer and completion
    timer become the events `Tick` and `Complete`, addressed by entry id;
    removal filters by id; "analyze" needs a finished entry. */
module Upload {

  datatype Status = Uploading | Success | Error

  /** The dropped `File`: its name and size in bytes. The contents are never read. */
  datatype FileInfo = FileInfo(name: string, size: nat)

  datatype UploadedFile = UploadedFile(file: FileInfo, id: string, status: Status, progress: int)

  const MaxFiles: nat := 5
  const ProgressStep: int := 20
  const FullProgress: int := 100

  /** What every entry satisfies at all times: progress is a multiple of the
      step within 0..100, no entry is ever in the error state, and a finished
      entry is at 100. */
  predicate EntryOk(f: UploadedFile)
  {
    && 0 <= f.progress <= FullProgress
    && f.progress % ProgressStep == 0
    && f.status != Error
    && (f.status == Success ==> f.progress == FullProgress)
  }

  /** The queue invariant: at most five entries, each well formed. */
  predicate QueueOk(s: seq<UploadedFile>)
  {
    |s| <= MaxFiles && forall i :: 0 <= i < |s| ==> EntryOk(s[i])
  }

  /** `Math.min(p + 20, 100)`. */
  function Advance(p: int): (r: int)
    ensures r <= FullProgress
    ensures p <= FullProgress ==> p <= r
    ensures r == FullProgress || r == p + ProgressStep
  {
    if p + ProgressStep < FullProgress then p + ProgressStep else FullProgress
  }

  /** The entries a drop adds: each file with its id, uploading, at 0. */
  function NewEntries(files: seq<FileInfo>, ids: seq<string>): (r: seq<UploadedFile>)
    requires |ids| == |files|
    ensures |r| == |files|
    ensures forall i :: 0 <= i < |r| ==>
              r[i].file == files[i] && r[i].id == ids[i] && r[i].status == Uploading && r[i].progress == 0
  {
    seq(|files|, i requires 0 <= i < |files| => UploadedFile(files[i], ids[i], Uploading, 0))
  }

  /** The interval callback: every entry with the id advances its progress
      by one step, capped at 100; every other entry, and every status, id and
      file, stays as it was. */
  function TickById(s: seq<UploadedFile>, id: string): (r: seq<UploadedFile>)
    ensures |r| == |s|
    ensures forall i :: 0 <= i < |s| ==>
              r[i].file == s[i].file && r[i].id == s[i].id && r[i].status == s[i].status
    ensures forall i :: 0 <= i < |s| && s[i].id != id ==> r[i] == s[i]
    ensures forall i :: 0 <= i < |s| && s[i].id == id ==> r[i].progress == Advance(s[i].progress)
  {
    if s == [] then []
    else
      var head := if s[0].id == id then s[0].(progress := Advance(s[0].progress)) else s[0];
      [head] + TickById(s[1..], id)
  }

  /** The completion callback: every entry with the id becomes `Success` at
      100; every other entry stays as it was. */
  function CompleteById(s: seq<UploadedFile>, id: string): (r: seq<UploadedFile>)
    ensures |r| == |s|
    ensures forall i :: 0 <= i < |s| ==> r[i].file == s[i].file && r[i].id == s[i].id
    ensures forall i :: 0 <= i < |s| && s[i].id != id ==> r[i] == s[i]
    ensures forall i :: 0 <= i < |s| && s[i].id == id ==> r[i].status == Success && r[i].progress == FullProgress
  {
    if s == [] then []
    else
      var head := if s[0].id == id then s[0].(status := Success, progress := FullProgress) else s[0];
      [head] + CompleteById(s[1..], id)
  }

  /** `removeFile`'s filter: drops every entry with the id and keeps every
      other entry, as often as it occurs. */
  function RemoveById(s: seq<UploadedFile>, id: string): (r: seq<UploadedFile>)
    ensures |r| <= |s|
    ensures forall i :: 0 <= i < |r| ==> r[i].id != id
    ensures forall x: UploadedFile :: x.id != id ==> multiset(r)[x] == multiset(s)[x]
  {
    if s == [] then []
    else
      assert s == [s[0]] + s[1..];
      if s[0].id == id then RemoveById(s[1..], id) else [s[0]] + RemoveById(s[1..], id)
  }

  /** `uploadedFiles.some(f => f.status === "success")`. */
  function AnySuccess(s: seq<UploadedFile>): (b: bool)
    ensures b <==> exists f :: f in s && f.status == Success
  {
    exists i :: 0 <= i < |s| && s[i].status == Success
  }

  predicate HasId(s: seq<UploadedFile>, id: string)
  {
    exists i :: 0 <= i < |s| && s[i].id == id
  }

  /** A tick keeps the queue invariant, and no entry's progress goes down. */
  lemma TickKeepsQueue(s: seq<UploadedFile>, id: string)
    requires QueueOk(s)
    ensures QueueOk(TickById(s, id))
    ensures forall i :: 0 <= i < |s| ==> s[i].progress <= TickById(s, id)[i].progress
  {
    var r := TickById(s, id);
    forall i | 0 <= i < |r|
      ensures EntryOk(r[i]) && s[i].progress <= r[i].progress
    {
      assert EntryOk(s[i]);
    }
  }

  /** A completion keeps the queue invariant, and no entry's progress goes down. */
  lemma CompleteKeepsQueue(s: seq<UploadedFile>, id: string)
    requires QueueOk(s)
    ensures QueueOk(CompleteById(s, id))
    ensures forall i :: 0 <= i < |s| ==> s[i].progress <= CompleteById(s, id)[i].progress
  {
  }

  /** Removal keeps the queue invariant. */
  lemma RemoveKeepsQueue(s: seq<UploadedFile>, id: string)
    requires QueueOk(s)
    ensures QueueOk(RemoveById(s, id))
  {
    var r := RemoveById(s, id);
    forall i | 0 <= i < |r|
      ensures EntryOk(r[i])
    {
      assert multiset(r)[r[i]] > 0;
      assert r[i] in multiset(s);
    }
  }

  /** A timer of an entry that has been removed is harmless: events for an
      id that is not in the queue change nothing. */
  lemma AbsentIdIsNoOp(s: seq<UploadedFile>, id: string)
    requires !HasId(s, id)
    ensures TickById(s, id) == s && CompleteById(s, id) == s && RemoveById(s, id) == s
  {
    AbsentIdNotRemoved(s, id);
  }

  lemma {:induction false} AbsentIdNotRemoved(s: seq<UploadedFile>, id: string)
    requires !HasId(s, id)
    ensures RemoveById(s, id) == s
  {
    if s != [] {
      assert !HasId(s[1..], id) by {
        forall i | 0 <= i < |s[1..]|
          ensures s[1..][i].id != id
        {
          assert s[1..][i] == s[i + 1];
        }
      }
      AbsentIdNotRemoved(s[1..], id);
    }
  }

  /** Removal keeps the survivors in their order: it distributes over
      concatenation, so it is the order-preserving filter. */
  lemma {:induction false} RemoveDistributes(a: seq<UploadedFile>, b: seq<UploadedFile>, id: string)
    ensures RemoveById(a + b, id) == RemoveById(a, id) + RemoveById(b, id)
  {
    if a == [] {
      assert a + b == b;
    } else {
      assert (a + b)[0] == a[0];
      assert (a + b)[1..] == a[1..] + b;
      RemoveDistributes(a[1..], b, id);
    }
  }

  /** A fresh drop has no finished entry. */
  lemma NewEntriesNotFinished(files: seq<FileInfo>, ids: seq<string>)
    requires |ids| == |files|
    ensures !AnySuccess(NewEntries(files, ids))
  {
  }

  /** Ticks never finish an entry: whether analysis may start is the same
      before and after a tick. */
  lemma TickKeepsAnalyzable(s: seq<UploadedFile>, id: string)
    ensures AnySuccess(TickById(s, id)) == AnySuccess(s)
  {
    var r := TickById(s, id);
    if AnySuccess(r) {
      var i :| 0 <= i < |r| && r[i].status == Success;
      assert s[i].status == Success;
    }
    if AnySuccess(s) {
      var i :| 0 <= i < |s| && s[i].status == Success;
      assert r[i].status == Success;
    }
  }

  /** Completing an entry that is in the queue makes analysis possible. */
  lemma CompleteEnablesAnalyze(s: seq<UploadedFile>, id: string)
    requires HasId(s, id)
    ensures AnySuccess(CompleteById(s, id))
  {
    var i :| 0 <= i < |s| && s[i].id == id;
    assert CompleteById(s, id)[i].status == Success;
  }

  /** Completing then ticking leaves a finished entry finished: further ticks
      of a completed entry keep it at 100. */
  lemma TickAfterComplete(s: seq<UploadedFile>, id: string)
    ensures TickById(CompleteById(s, id), id) == CompleteById(s, id)
  {
    var c := CompleteById(s, id);
    var t := TickById(c, id);
    assert forall i :: 0 <= i < |c| ==> t[i] == c[i];
  }

  class UploadPage {
    var uploadedFiles: seq<UploadedFile>
    var isProcessing: bool

    ghost predicate Valid()
      reads this
    {
      QueueOk(uploadedFiles)
    }

    constructor ()
      ensures Valid() && uploadedFiles == [] && !isProcessing
    {
      uploadedFiles := [];
      isProcessing := false;
    }

    /** `onDrop`: a batch that would take the queue past five entries is
        rejected whole; otherwise its files are appended in drop order, each
        uploading at 0 under the id given for it. */
    method OnDrop(accepted: seq<FileInfo>, ids: seq<string>) returns (ok: bool)
      requires Valid() && |ids| == |accepted|
      modifies this`uploadedFiles
      ensures Valid()
      ensures ok <==> |old(uploadedFiles)| + |accepted| <= MaxFiles
      ensures !ok ==> uploadedFiles == old(uploadedFiles)
      ensures ok ==> uploadedFiles == old(uploadedFiles) + NewEntries(accepted, ids)
    {
      if |uploadedFiles| + |accepted| > MaxFiles {
        return false;
      }
      uploadedFiles := uploadedFiles + NewEntries(accepted, ids);
      ok := true;
    }

    /** One firing of the progress interval of the entry `id`. */
    method Tick(id: string)
      requires Valid()
      modifies this`uploadedFiles
      ensures Valid()
      ensures uploadedFiles == TickById(old(uploadedFiles), id)
    {
      TickKeepsQueue(uploadedFiles, id);
      uploadedFiles := TickById(uploadedFiles, id);
    }

    /** The completion timeout of the entry `id`. */
    method Complete(id: string)
      requires Valid()
      modifies this`uploadedFiles
      ensures Valid()
      ensures uploadedFiles == CompleteById(old(uploadedFiles), id)
    {
      CompleteKeepsQueue(uploadedFiles, id);
      uploadedFiles := CompleteById(uploadedFiles, id);
    }

    /** `removeFile`. */
    method RemoveFile(id: string)
      requires Valid()
      modifies this`uploadedFiles
      ensures Valid()
      ensures uploadedFiles == RemoveById(old(uploadedFiles), id)
    {
      RemoveKeepsQueue(uploadedFiles, id);
      uploadedFiles := RemoveById(uploadedFiles, id);
    }

    /** `handleAnalyze`: starts processing only when some entry has finished;
        otherwise nothing changes. */
    method HandleAnalyze() returns (started: bool)
      modifies this`isProcessing
      ensures started == AnySuccess(uploadedFiles)
      ensures isProcessing == (old(isProcessing) || started)
    {
      started := exists i :: 0 <= i < |uploadedFiles| && uploadedFiles[i].status == Success;
      if started {
        isProcessing := true;
      }
    }
  }
}
