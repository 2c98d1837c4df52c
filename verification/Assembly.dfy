/**
 Streaming assembly of the markdown document for a snapshot. Fetches can fail, and a writer can fail after
 taking any part of what it was given; both are parameters.
 */
module Assembly {
  import opened Wrappers

  datatype FileEntry = FileEntry(path: string, language: string, sha: string)

  /** The contents of git blobs, addressed by hash. */
  type Blobs = string -> string

  function ShortSha(sha: string): string {
    if |sha| > 8 then sha[..8] else sha
  }

  /** The first `n` parts, one after another. */
  function Upto(parts: seq<string>, n: nat): string
    requires n <= |parts|
  {
    if n == 0 then "" else Upto(parts, n - 1) + parts[n - 1]
  }

  function Concat(parts: seq<string>): string {
    Upto(parts, |parts|)
  }

  function Header(name: string, sha: string): string {
    Concat(["# Codebase Snapshot \U{2014} ", name, " @ ", ShortSha(sha), "\n\n"])
  }

  function Section(f: FileEntry, content: string): string {
    Concat(["## ", f.path, "\n\n```", if f.language == "" then "text" else f.language, "\n", content, "\n```\n\n"])
  }

  /** The document in the pieces it is written in: the header, then one section per file. */
  function Pieces(name: string, sha: string, files: seq<FileEntry>, blobs: Blobs): seq<string> {
    seq(|files| + 1, i requires 0 <= i <= |files| =>
      if i == 0 then Header(name, sha) else Section(files[i - 1], blobs(files[i - 1].sha)))
  }

  /** The whole document. */
  function Render(name: string, sha: string, files: seq<FileEntry>, blobs: Blobs): string {
    Concat(Pieces(name, sha, files, blobs))
  }

  lemma {:induction false} UptoGrows(parts: seq<string>, i: nat, j: nat)
    requires i <= j <= |parts|
    ensures Upto(parts, i) <= Upto(parts, j)
    decreases j
  {
    if i < j {
      UptoGrows(parts, i, j - 1);
    }
  }

  /** No piece is empty, so each one makes the document longer. */
  lemma PieceNonEmpty(name: string, sha: string, files: seq<FileEntry>, blobs: Blobs, i: nat)
    requires i <= |files|
    ensures |Pieces(name, sha, files, blobs)[i]| > 0
  {
    if i == 0 {
      HeaderNonEmpty(name, sha);
    } else {
      SectionNonEmpty(files[i - 1], blobs(files[i - 1].sha));
    }
  }

  lemma HeaderNonEmpty(name: string, sha: string)
    ensures |Header(name, sha)| > 0
  {
    var parts := ["# Codebase Snapshot \U{2014} ", name, " @ ", ShortSha(sha), "\n\n"];
    assert |Upto(parts, 5)| == |Upto(parts, 4)| + |parts[4]|;
  }

  lemma SectionNonEmpty(f: FileEntry, content: string)
    ensures |Section(f, content)| > 0
  {
    var parts := ["## ", f.path, "\n\n```", if f.language == "" then "text" else f.language, "\n", content, "\n```\n\n"];
    assert |Upto(parts, 7)| == |Upto(parts, 6)| + |parts[6]|;
  }

  /** What a write leaves in the output: everything, or the first `n` characters when it fails. */
  function Taken(failure: Option<nat>, text: string): string {
    if failure.None? || failure.value >= |text| then text else text[..failure.value]
  }

  /** An output stream; write number `k` fails when `plan(k)` says so. */
  class Writer {
    var out: string
    var writes: nat
    const plan: nat -> Option<nat>

    constructor (plan: nat -> Option<nat>)
      ensures out == "" && writes == 0 && this.plan == plan
    {
      out, writes := "", 0;
      this.plan := plan;
    }

    method Write(text: string) returns (ok: bool)
      modifies this
      ensures out == old(out) + Taken(plan(old(writes)), text)
      ensures writes == old(writes) + 1
      ensures ok == plan(old(writes)).None?
    {
      var failure := plan(writes);
      writes := writes + 1;
      if failure.Some? && failure.value < |text| {
        out := out + text[..failure.value];
      } else {
        out := out + text;
      }
      ok := failure.None?;
    }
  }

  /** Since it held `before`, the stream has received a prefix of `whole`. */
  predicate IsPart(before: string, now: string, whole: string) {
    before <= now && now[|before|..] <= whole
  }

  /** What the stream holds after an assembly of `whole` that returned `ok`, given whether its last write failed. */
  predicate Outcome(before: string, now: string, whole: string, lastFailed: bool, ok: bool) {
    IsPart(before, now, whole) && (ok <==> now == before + whole && !lastFailed)
  }

  lemma PartOf(before: string, done: string, taken: string, text: string, whole: string)
    requires taken <= text && done + text <= whole
    ensures IsPart(before, before + done + taken, whole)
  {
    assert before + done + taken == before + (done + taken);
    var more := done + taken;
    assert (before + more)[|before|..] == more;
    forall k | 0 <= k < |more| ensures more[k] == whole[k] {
      assert (done + text)[k] == whole[k];
    }
  }

  lemma LongerUpto(parts: seq<string>, i: nat)
    requires i < |parts| - 1 && |parts[|parts| - 1]| > 0
    ensures |Upto(parts, i)| + |parts[i]| < |Concat(parts)|
  {
    UptoGrows(parts, i + 1, |parts| - 1);
    assert |Upto(parts, i + 1)| == |Upto(parts, i)| + |parts[i]|;
  }

  lemma {:induction false} SameUpto(parts: seq<string>, parts': seq<string>, n: nat)
    requires n <= |parts| && n <= |parts'| && forall i :: 0 <= i < n ==> parts[i] == parts'[i]
    ensures Upto(parts, n) == Upto(parts', n)
  {
    if n > 0 {
      SameUpto(parts, parts', n - 1);
    }
  }

  /** More files make a longer document. */
  lemma LongerDocument(name: string, sha: string, files: seq<FileEntry>, more: seq<FileEntry>, blobs: Blobs)
    requires more != []
    ensures |Render(name, sha, files, blobs)| < |Render(name, sha, files + more, blobs)|
  {
    var parts, parts' := Pieces(name, sha, files, blobs), Pieces(name, sha, files + more, blobs);
    var n := |files|;
    forall i | 0 <= i <= n ensures parts[i] == parts'[i] {
    }
    SameUpto(parts, parts', n + 1);
    PieceNonEmpty(name, sha, files + more, blobs, |files + more|);
    LongerUpto(parts', n);
    assert |Upto(parts', n + 1)| == |Upto(parts', n)| + |parts'[n]|;
  }

  /** A write of piece `i` that failed, or was never made, leaves a prefix; the whole only if `i` is the last. */
  lemma Stopped(before: string, now: string, parts: seq<string>, i: nat, taken: string, lastFailed: bool)
    requires i < |parts| && now == before + Upto(parts, i) + taken && taken <= parts[i]
    requires |parts[|parts| - 1]| > 0 && (i == |parts| - 1 ==> taken == "" || lastFailed)
    ensures Outcome(before, now, Concat(parts), lastFailed, false)
  {
    UptoGrows(parts, i + 1, |parts|);
    PartOf(before, Upto(parts, i), taken, parts[i], Concat(parts));
    if i < |parts| - 1 {
      LongerUpto(parts, i);
    }
  }

  ghost predicate NeverFails(w: Writer) {
    forall k :: w.plan(k).None?
  }

  ghost predicate AllFetched(n: nat, fetched: nat -> bool) {
    forall i :: 0 <= i < n ==> fetched(i)
  }

  /** Where an assembly began: what the stream held, how many writes it had seen, the pieces to write, and
   whether the last of these writes fails or none ever does. */
  datatype Start = Start(before: string, first: nat, parts: seq<string>, lastFails: bool, sound: bool)

  ghost predicate StartOk(w: Writer, start: Start) {
    && start.parts != [] && |start.parts[|start.parts| - 1]| > 0
    && start.lastFails == w.plan(start.first + |start.parts| - 1).Some?
    && (start.sound ==> NeverFails(w))
  }

  /** The stream has received the first `i` pieces, one successful write each. */
  ghost predicate Reached(w: Writer, start: Start, i: nat)
    requires i <= |start.parts|
    reads w
  {
    && w.writes == start.first + i && w.out == start.before + Upto(start.parts, i)
    && (i == |start.parts| && i > 0 ==> !start.lastFails)
  }

  ghost predicate Ended(w: Writer, start: Start, ok: bool)
    reads w
  {
    Outcome(start.before, w.out, Concat(start.parts), start.lastFails, ok)
  }

  method WritePiece(w: Writer, text: string, ghost start: Start, ghost i: nat) returns (ok: bool)
    requires i < |start.parts| && text == start.parts[i] && StartOk(w, start) && Reached(w, start, i)
    modifies w
    ensures ok ==> Reached(w, start, i + 1)
    ensures !ok ==> Ended(w, start, false) && !start.sound
  {
    ok := w.Write(text);
    if !ok {
      Stopped(start.before, w.out, start.parts, i, Taken(w.plan(start.first + i), text), start.lastFails);
    }
  }

  lemma NotFetched(w: Writer, start: Start, i: nat)
    requires i < |start.parts| && StartOk(w, start) && Reached(w, start, i)
    ensures Ended(w, start, false)
  {
    assert w.out == w.out + "";
    Stopped(start.before, w.out, start.parts, i, "", start.lastFails);
  }

  lemma Finished(w: Writer, start: Start)
    requires StartOk(w, start) && Reached(w, start, |start.parts|)
    ensures Ended(w, start, true)
  {
  }

  lemma PiecesAre(name: string, sha: string, files: seq<FileEntry>, blobs: Blobs) returns (parts: seq<string>)
    ensures |parts| == |files| + 1 && Concat(parts) == Render(name, sha, files, blobs)
    ensures parts[0] == Header(name, sha) && |parts[|files|]| > 0
    ensures forall i :: 0 <= i < |files| ==> parts[i + 1] == Section(files[i], blobs(files[i].sha))
  {
    parts := Pieces(name, sha, files, blobs);
    PieceNonEmpty(name, sha, files, blobs, |files|);
  }

  /** The body of the loop: fetch one file's blob and write its section. */
  method WriteFile(w: Writer, f: FileEntry, blobs: Blobs, fetched: bool, ghost start: Start, ghost i: nat)
    returns (ok: bool)
    requires i < |start.parts| && start.parts[i] == Section(f, blobs(f.sha)) && StartOk(w, start)
    requires Reached(w, start, i)
    modifies w
    ensures ok ==> fetched && Reached(w, start, i + 1)
    ensures !ok ==> Ended(w, start, false) && !(fetched && start.sound)
  {
    if !fetched {
      NotFetched(w, start, i);
      return false;
    }
    ok := WritePiece(w, Section(f, blobs(f.sha)), start, i);
  }

  /** The loop over the files, after the header. */
  method WriteFiles(w: Writer, files: seq<FileEntry>, blobs: Blobs, fetched: nat -> bool, ghost start: Start)
    returns (ok: bool)
    requires |start.parts| == |files| + 1 && StartOk(w, start) && Reached(w, start, 1)
    requires forall i :: 0 <= i < |files| ==> start.parts[i + 1] == Section(files[i], blobs(files[i].sha))
    modifies w
    ensures Ended(w, start, ok)
    ensures ok ==> AllFetched(|files|, fetched)
    ensures AllFetched(|files|, fetched) && start.sound ==> ok
  {
    var i := 0;
    while i < |files|
      invariant 0 <= i <= |files| && Reached(w, start, i + 1) && AllFetched(i, fetched)
    {
      ok := WriteFile(w, files[i], blobs, fetched(i), start, i + 1);
      if !ok {
        return false;
      }
      i := i + 1;
    }
    Finished(w, start);
    return true;
  }

  /**
   Whatever fails, the output is a prefix of the document; Assemble returns nil exactly when the output is
   the document and the last write reported no error, which it is unless a fetch or a write fails.
   */
  method Assemble(
    name: string, sha: string, files: seq<FileEntry>, blobs: Blobs, fetched: nat -> bool, w: Writer)
    returns (ok: bool)
    modifies w
    ensures Outcome(old(w.out), w.out, Render(name, sha, files, blobs), w.plan(old(w.writes) + |files|).Some?, ok)
    ensures ok ==> AllFetched(|files|, fetched)
    ensures AllFetched(|files|, fetched) && NeverFails(w) ==> ok
  {
    ghost var parts := PiecesAre(name, sha, files, blobs);
    ghost var start := Start(w.out, w.writes, parts, w.plan(w.writes + |files|).Some?, NeverFails(w));
    ok := WritePiece(w, Header(name, sha), start, 0);
    if !ok {
      return false;
    }
    ok := WriteFiles(w, files, blobs, fetched, start);
  }
}
