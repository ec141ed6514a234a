/**
 * File staging: `handleFiles` keeps the files of a new selection whose
 * names carry an accepted extension, replacing whatever was staged, and
 * `removeFile` splices one entry out.
 */
module Staging {
  import opened Text

  /** A selected file; the content handle is not modelled. */
  datatype FileEntry = FileEntry(name: string, size: nat)

  /** The alternatives of `/\.(framer|json|zip|txt|js|jsx|ts|tsx)$/i`. */
  const Extensions: seq<string> := ["framer", "json", "zip", "txt", "js", "jsx", "ts", "tsx"]

  /**
   * The name ends in a dot and an accepted extension, ignoring ASCII case.
   * The pattern's letters are ASCII, which the `i` flag only folds against
   * ASCII letters, so ASCII folding decides the match exactly.
   */
  predicate Accepted(name: string) {
    EndsWithAny(Lower(name), Extensions)
  }

  /** The regular expression's alternation, tried in order. */
  predicate EndsWithAny(lower: string, exts: seq<string>) {
    |exts| > 0 && (HasSuffix(lower, "." + exts[0]) || EndsWithAny(lower, exts[1..]))
  }

  /** Acceptance means: some accepted extension, after a dot, ends the lower-cased name. */
  lemma {:induction false} EndsWithAnyIff(lower: string, exts: seq<string>)
    ensures EndsWithAny(lower, exts) <==> exists e :: e in exts && HasSuffix(lower, "." + e)
    decreases |exts|
  {
    if |exts| > 0 {
      EndsWithAnyIff(lower, exts[1..]);
      if exists e :: e in exts && HasSuffix(lower, "." + e) {
        var e :| e in exts && HasSuffix(lower, "." + e);
        if e != exts[0] {
          assert e in exts[1..];
        }
      }
      if EndsWithAny(lower, exts[1..]) {
        var e :| e in exts[1..] && HasSuffix(lower, "." + e);
        assert e in exts;
      }
    }
  }

  /** `Array.from(fileList).filter(...)`: the accepted files, in order. */
  function Filter(batch: seq<FileEntry>): (r: seq<FileEntry>)
    ensures |r| <= |batch|
    ensures forall f :: f in r ==> f in batch && Accepted(f.name)
    ensures forall f :: f in batch && Accepted(f.name) ==> f in r
  {
    if |batch| == 0 then []
    else (if Accepted(batch[0].name) then [batch[0]] else []) + Filter(batch[1..])
  }

  /** Filtering commutes with concatenation, so it keeps the batch's order. */
  lemma {:induction false} FilterAppend(a: seq<FileEntry>, b: seq<FileEntry>)
    ensures Filter(a + b) == Filter(a) + Filter(b)
    decreases |a|
  {
    if |a| > 0 {
      assert (a + b)[1..] == a[1..] + b;
      FilterAppend(a[1..], b);
    } else {
      assert a + b == b;
    }
  }

  /** A staged list is already filtered: filtering it again changes nothing. */
  lemma {:induction false} FilterIdempotent(batch: seq<FileEntry>)
    ensures Filter(Filter(batch)) == Filter(batch)
    decreases |batch|
  {
    if |batch| > 0 {
      var head := if Accepted(batch[0].name) then [batch[0]] else [];
      FilterAppend(head, Filter(batch[1..]));
      FilterIdempotent(batch[1..]);
      if Accepted(batch[0].name) {
        assert Filter(head) == head;
      }
    }
  }

  /** Case never decides acceptance. */
  lemma AcceptedIgnoresCase(name: string)
    ensures Accepted(name) <==> Accepted(Lower(name))
  {
    LowerIdempotent(name);
  }

  /** A name whose lower-cased form ends in a dot and an accepted extension passes. */
  lemma SuffixAccepted(name: string, e: string)
    requires e in Extensions && HasSuffix(Lower(name), "." + e)
    ensures Accepted(name)
  {
    EndsWithAnyIff(Lower(name), Extensions);
  }

  /** An upper-case extension passes. */
  lemma UpperCaseAccepted()
    ensures Accepted("App.TSX")
  {
    var l := Lower("App.TSX");
    assert l[3] == '.' && l[4] == 't' && l[5] == 's' && l[6] == 'x';
    assert l[3..] == "." + "tsx";
    SuffixAccepted("App.TSX", "tsx");
  }

  /** A name that only contains an accepted extension, not at its end, is refused. */
  lemma InnerExtensionRefused()
    ensures !Accepted("data.json.bak")
  {
    var lower := "data.json.bak";
    assert Lower("data.json.bak") == lower;
    forall e | e in Extensions
      ensures !HasSuffix(lower, "." + e)
    {
      SuffixSharesLast(lower, "." + e);
    }
    EndsWithAnyIff(lower, Extensions);
  }

  /**
   * Where `splice(index, 1)` starts: a negative index counts back from the
   * end (and stops at 0), a large one stops at the end.
   */
  function SpliceStart(index: int, len: nat): (k: nat)
    ensures k <= len
    ensures 0 <= index <= len ==> k == index
    ensures index < 0 && len + index >= 0 ==> k == len + index
  {
    if index < 0 then (if len + index < 0 then 0 else len + index)
    else if index > len then len
    else index
  }

  /** `r` is `files` with exactly the entry at position `k` taken out. */
  ghost predicate RemovedAt(r: seq<FileEntry>, files: seq<FileEntry>, k: nat) {
    && k < |files|
    && |r| == |files| - 1
    && (forall j :: 0 <= j < k ==> r[j] == files[j])
    && (forall j :: k <= j < |r| ==> r[j] == files[j + 1])
  }

  /** `removeFile(index)`: `this.files.splice(index, 1)`. */
  function RemoveAt(files: seq<FileEntry>, index: int): (r: seq<FileEntry>)
    ensures 0 <= index < |files| ==> RemovedAt(r, files, index)
    ensures index >= |files| ==> r == files
    ensures index < 0 && |files| + index >= 0 && |files| > 0 ==> RemovedAt(r, files, |files| + index)
    ensures index < 0 && |files| + index < 0 && |files| > 0 ==> RemovedAt(r, files, 0)
    ensures |files| == 0 ==> r == []
  {
    var k := SpliceStart(index, |files|);
    if k < |files| then files[..k] + files[k + 1..] else files
  }

  /** Putting `x` back at position `i`. */
  function InsertAt(files: seq<FileEntry>, i: nat, x: FileEntry): seq<FileEntry>
    requires i <= |files|
  {
    files[..i] + [x] + files[i..]
  }

  /** Removal in range is undone by re-inserting the removed file where it was. */
  lemma RemoveThenInsert(files: seq<FileEntry>, i: nat)
    requires i < |files|
    ensures InsertAt(RemoveAt(files, i), i, files[i]) == files
  {
    assert RemoveAt(files, i) == files[..i] + files[i + 1..];
    assert files[..i] + [files[i]] + files[i + 1..] == files;
  }
}
