/** What an assembled document says, spelled out, and that it tells contents apart. */
module Documents {
  import opened Assembly

  lemma FiveParts(a: string, b: string, c: string, d: string, e: string)
    ensures Concat([a, b, c, d, e]) == a + b + c + d + e
  {
    var parts := [a, b, c, d, e];
    assert Upto(parts, 1) == a;
    assert Upto(parts, 2) == a + b;
    assert Upto(parts, 3) == a + b + c;
    assert Upto(parts, 4) == a + b + c + d;
  }

  lemma SevenParts(a: string, b: string, c: string, d: string, e: string, f: string, g: string)
    ensures Concat([a, b, c, d, e, f, g]) == a + b + c + d + e + f + g
  {
    var parts := [a, b, c, d, e, f, g];
    assert Upto(parts, 1) == a;
    assert Upto(parts, 2) == a + b;
    assert Upto(parts, 3) == a + b + c;
    assert Upto(parts, 4) == a + b + c + d;
    assert Upto(parts, 5) == a + b + c + d + e;
    assert Upto(parts, 6) == a + b + c + d + e + f;
  }

  /** Without files the document is its heading: the repository's name and at most eight characters of the sha. */
  lemma RenderNone(name: string, sha: string, blobs: Blobs)
    ensures Render(name, sha, [], blobs)
            == "# Codebase Snapshot \U{2014} " + name + " @ " + (if |sha| > 8 then sha[..8] else sha) + "\n\n"
  {
    FiveParts("# Codebase Snapshot \U{2014} ", name, " @ ", ShortSha(sha), "\n\n");
    assert Pieces(name, sha, [], blobs) == [Header(name, sha)];
    OnePart(Header(name, sha));
  }

  lemma OnePart(a: string)
    ensures Concat([a]) == a
  {
    assert Upto([a], 1) == Upto([a], 0) + a;
  }

  /** The pieces of one file more. */
  lemma OnePieceMore(name: string, sha: string, files: seq<FileEntry>, f: FileEntry, blobs: Blobs)
    ensures Render(name, sha, files + [f], blobs) == Render(name, sha, files, blobs) + Section(f, blobs(f.sha))
  {
    var parts, parts' := Pieces(name, sha, files, blobs), Pieces(name, sha, files + [f], blobs);
    var n := |parts|;
    forall i | 0 <= i < n ensures parts[i] == parts'[i] {
    }
    SameUpto(parts, parts', n);
    assert parts'[n] == Section(f, blobs(f.sha));
  }

  /** Each further file adds its path as a heading and its content, fenced with its language. */
  lemma RenderOneMore(name: string, sha: string, files: seq<FileEntry>, f: FileEntry, blobs: Blobs)
    ensures Render(name, sha, files + [f], blobs)
            == Render(name, sha, files, blobs)
               + ("## " + f.path + "\n\n```" + (if f.language == "" then "text" else f.language) + "\n"
                  + blobs(f.sha) + "\n```\n\n")
  {
    OnePieceMore(name, sha, files, f, blobs);
    SevenParts("## ", f.path, "\n\n```", if f.language == "" then "text" else f.language, "\n", blobs(f.sha), "\n```\n\n");
  }

  // -- Telling contents apart --

  /** A section's length and text follow its content. */
  lemma SectionFollowsContent(f: FileEntry, content: string, content': string)
    ensures |Section(f, content)| - |content| == |Section(f, content')| - |content'|
    ensures Section(f, content) == Section(f, content') ==> content == content'
  {
    var lang := if f.language == "" then "text" else f.language;
    var before, after := "## " + f.path + "\n\n```" + lang + "\n", "\n```\n\n";
    SevenParts("## ", f.path, "\n\n```", lang, "\n", content, "\n```\n\n");
    SevenParts("## ", f.path, "\n\n```", lang, "\n", content', "\n```\n\n");
    Between(before, content, after);
    Between(before, content', after);
  }

  lemma Between(before: string, content: string, after: string)
    ensures |before + content + after| == |before| + |content| + |after|
    ensures (before + content + after)[|before|..|before| + |content|] == content
  {
  }

  /** Pieces of equal lengths that run together to the same text are the same. */
  lemma {:induction false} UptoDetermines(parts: seq<string>, parts': seq<string>, n: nat)
    requires n <= |parts| && n <= |parts'| && forall i :: 0 <= i < n ==> |parts[i]| == |parts'[i]|
    ensures |Upto(parts, n)| == |Upto(parts', n)|
    ensures Upto(parts, n) == Upto(parts', n) ==> forall i :: 0 <= i < n ==> parts[i] == parts'[i]
  {
    if n > 0 {
      UptoDetermines(parts, parts', n - 1);
      var head, head', last, last' := Upto(parts, n - 1), Upto(parts', n - 1), parts[n - 1], parts'[n - 1];
      if head + last == head' + last' {
        assert head == (head + last)[..|head|] && head' == (head' + last')[..|head'|];
        assert last == (head + last)[|head|..] && last' == (head' + last')[|head'|..];
      }
    }
  }

  /** Pieces no longer than others run together to no longer a text, and to a shorter one if one of them is shorter. */
  lemma {:induction false} UptoShorter(parts: seq<string>, parts': seq<string>, n: nat, k: nat)
    requires n <= |parts| && n <= |parts'| && forall i :: 0 <= i < n ==> |parts[i]| <= |parts'[i]|
    requires k < |parts| && k < |parts'| && |parts[k]| < |parts'[k]|
    ensures |Upto(parts, n)| <= |Upto(parts', n)|
    ensures k < n ==> |Upto(parts, n)| < |Upto(parts', n)|
  {
    if n > 0 {
      UptoShorter(parts, parts', n - 1, k);
    }
  }

  /** The stores agree on every hash but one. */
  ghost predicate DifferAt(blobs: Blobs, blobs': Blobs, hash: string) {
    blobs(hash) != blobs'(hash) && forall h :: h != hash ==> blobs(h) == blobs'(h)
  }

  lemma PiecesFollow(name: string, sha: string, files: seq<FileEntry>, blobs: Blobs, blobs': Blobs, hash: string, i: nat)
    requires DifferAt(blobs, blobs', hash) && i <= |files|
    ensures var p, p' := Pieces(name, sha, files, blobs)[i], Pieces(name, sha, files, blobs')[i];
            if i > 0 && files[i - 1].sha == hash
            then p != p' && |p| - |blobs(hash)| == |p'| - |blobs'(hash)|
            else p == p'
  {
    if i > 0 {
      SectionFollowsContent(files[i - 1], blobs(files[i - 1].sha), blobs'(files[i - 1].sha));
    }
  }

  /** Blob stores that differ on exactly one hash, and that one listed, give different documents. */
  lemma ContentsTellApart(
    name: string, sha: string, files: seq<FileEntry>, blobs: Blobs, blobs': Blobs, hash: string, k: nat)
    requires DifferAt(blobs, blobs', hash) && k < |files| && files[k].sha == hash
    ensures Render(name, sha, files, blobs) != Render(name, sha, files, blobs')
  {
    var parts, parts' := Pieces(name, sha, files, blobs), Pieces(name, sha, files, blobs');
    var n := |files| + 1;
    forall i | 0 <= i < n
      ensures parts[i] == parts'[i] || |parts[i]| - |blobs(hash)| == |parts'[i]| - |blobs'(hash)|
    {
      PiecesFollow(name, sha, files, blobs, blobs', hash, i);
    }
    PiecesFollow(name, sha, files, blobs, blobs', hash, k + 1);
    if |blobs(hash)| < |blobs'(hash)| {
      UptoShorter(parts, parts', n, k + 1);
    } else if |blobs'(hash)| < |blobs(hash)| {
      UptoShorter(parts', parts, n, k + 1);
    } else {
      UptoDetermines(parts, parts', n);
    }
  }
}
