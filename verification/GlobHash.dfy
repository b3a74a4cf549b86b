/** The hash over the files that a glob selects (src/resources/trigger.rs:982-1020). The digest
    (section 6.2 of FIPS 180-4) is a parameter of fixed width. It cannot be injective, so the results
    produce a collision of the digest instead of assuming that there is none. */
module GlobHash {
  import opened Wrappers

  type Bytes = seq<bv8>

  /** The selected files; the content is missing if the file cannot be read. */
  type Files = map<string, Option<Bytes>>

  ghost predicate StrictOrder(before: (string, string) -> bool) {
    && (forall p :: !before(p, p))
    && (forall p, q, r :: before(p, q) && before(q, r) ==> before(p, r))
    && (forall p, q :: p != q ==> before(p, q) || before(q, p))
  }

  /** What the walker yields: every selected file once, in the order of the paths. */
  ghost predicate IsListing(files: Files, listing: seq<string>, before: (string, string) -> bool) {
    && (forall p :: p in listing <==> p in files)
    && (forall i, j :: 0 <= i < j < |listing| ==> before(listing[i], listing[j]))
  }

  ghost predicate Width(digest: Bytes -> Bytes, w: nat) {
    w > 0 && forall b :: |digest(b)| == w
  }

  /** The contents in the order of the listing; none if a file cannot be read. */
  function Contents(files: Files, listing: seq<string>): (contents: Option<seq<Bytes>>)
    requires forall p <- listing :: p in files
    ensures contents.Some? ==> |contents.value| == |listing|
    ensures contents.Some? ==> forall i :: 0 <= i < |listing| ==> files[listing[i]] == Some(contents.value[i])
    ensures contents.None? <==> exists p <- listing :: files[p].None?
  {
    if listing == [] then Some([]) else
      var last := Last(listing);
      match Contents(files, listing[..|listing| - 1])
      case None => None
      case Some(before) => if files[last].None? then None else Some(before + [files[last].value])
  }

  function Blocks(contents: seq<Bytes>, digest: Bytes -> Bytes): Bytes {
    if contents == [] then [] else Blocks(contents[..|contents| - 1], digest) + digest(Last(contents))
  }

  /** The result for a selection. */
  function Hashed(files: Files, listing: seq<string>, digest: Bytes -> Bytes): Option<Bytes>
    requires forall p <- listing :: p in files
  {
    match Contents(files, listing)
    case None => None
    case Some(contents) => Some(digest(Blocks(contents, digest)))
  }

  class Hasher {
    const digest: Bytes -> Bytes
    var data: Bytes

    constructor (digest: Bytes -> Bytes)
      ensures data == [] && this.digest == digest
    {
      this.digest, this.data := digest, [];
    }

    method Update(bytes: Bytes)
      modifies this`data
      ensures data == old(data) + bytes
    {
      data := data + bytes;
    }

    method Finalize() returns (hash: Bytes)
      ensures hash == digest(data)
    {
      hash := digest(data);
    }
  }

  method CalcBufferHash(buffer: Bytes, digest: Bytes -> Bytes) returns (hash: Bytes)
    ensures hash == digest(buffer)
  {
    var hasher := new Hasher(digest);
    hasher.Update(buffer);
    assert [] + buffer == buffer;
    hash := hasher.Finalize();
  }

  method GetFileGlobHash(files: Files, listing: seq<string>, digest: Bytes -> Bytes) returns (hash: Option<Bytes>)
    requires forall p <- listing :: p in files
    ensures hash.None? <==> exists p <- listing :: files[p].None?
    ensures hash.Some? ==> hash.value == digest(Blocks(Contents(files, listing).value, digest))
    ensures hash == Hashed(files, listing, digest)
  {
    var hasher := new Hasher(digest);
    for i := 0 to |listing|
      invariant hasher.digest == digest && fresh(hasher)
      invariant Contents(files, listing[..i]).Some?
      invariant hasher.data == Blocks(Contents(files, listing[..i]).value, digest)
    {
      var content := files[listing[i]];
      if content.None? {
        return None;
      }
      NextFile(files, listing, i, digest);
      var fileHash := CalcBufferHash(content.value, digest);
      hasher.Update(fileHash);
    }
    assert listing[..|listing|] == listing;
    var result := hasher.Finalize();
    return Some(result);
  }

  lemma NextFile(files: Files, listing: seq<string>, i: nat, digest: Bytes -> Bytes)
    requires i < |listing| && forall p <- listing :: p in files
    requires Contents(files, listing[..i]).Some? && files[listing[i]].Some?
    ensures Contents(files, listing[..i + 1]).Some?
    ensures Blocks(Contents(files, listing[..i + 1]).value, digest)
         == Blocks(Contents(files, listing[..i]).value, digest) + digest(files[listing[i]].value)
  {
    assert listing[..i + 1][..i] == listing[..i];
    var before, content := Contents(files, listing[..i]).value, files[listing[i]].value;
    assert Contents(files, listing[..i + 1]).value == before + [content];
    assert (before + [content])[..|before|] == before;
  }

  // ---------------------------------------------------------------------------
  // Order and contents
  // ---------------------------------------------------------------------------

  /** The order in which directories are read does not matter: there is only one listing. */
  lemma {:induction false} ListingIsUnique(files: Files, l1: seq<string>, l2: seq<string>, before: (string, string) -> bool)
    requires StrictOrder(before) && IsListing(files, l1, before) && IsListing(files, l2, before)
    ensures l1 == l2
    decreases |l1|
  {
    if l1 != [] && l2 != [] {
      SameFirst(files, l1, l2, before);
      ListingOfRest(files, l1, before);
      ListingOfRest(files, l2, before);
      ListingIsUnique(files - {l1[0]}, l1[1..], l2[1..], before);
      assert l1 == [l1[0]] + l1[1..] && l2 == [l2[0]] + l2[1..];
    } else {
      EmptyListing(files, l1, before);
      EmptyListing(files, l2, before);
    }
  }

  lemma EmptyListing(files: Files, l: seq<string>, before: (string, string) -> bool)
    requires IsListing(files, l, before)
    ensures l == [] <==> files.Keys == {}
  {
    if l != [] {
      assert l[0] in files;
    } else {
      assert forall p :: p !in files;
    }
  }

  lemma SameFirst(files: Files, l1: seq<string>, l2: seq<string>, before: (string, string) -> bool)
    requires StrictOrder(before) && IsListing(files, l1, before) && IsListing(files, l2, before)
    requires l1 != [] && l2 != []
    ensures l1[0] == l2[0]
  {
    assert l1[0] in l2 && l2[0] in l1;
    var i :| 0 <= i < |l2| && l2[i] == l1[0];
    var j :| 0 <= j < |l1| && l1[j] == l2[0];
  }

  lemma ListingOfRest(files: Files, l: seq<string>, before: (string, string) -> bool)
    requires StrictOrder(before) && IsListing(files, l, before) && l != []
    ensures IsListing(files - {l[0]}, l[1..], before)
  {
  }

  /** Equal concatenations of blocks of one width have equal blocks. */
  lemma {:induction false} BlocksAligned(c1: seq<Bytes>, c2: seq<Bytes>, digest: Bytes -> Bytes, w: nat)
    requires Width(digest, w) && Blocks(c1, digest) == Blocks(c2, digest)
    ensures |c1| == |c2|
    ensures forall i :: 0 <= i < |c1| ==> digest(c1[i]) == digest(c2[i])
    decreases |c1|
  {
    assert c1 != [] ==> |digest(Last(c1))| == w;
    assert c2 != [] ==> |digest(Last(c2))| == w;
    if c1 != [] && c2 != [] {
      var b1, b2 := Blocks(c1[..|c1| - 1], digest), Blocks(c2[..|c2| - 1], digest);
      assert |b1| == |b2|;
      assert b1 == Blocks(c1, digest)[..|b1|] && b2 == Blocks(c2, digest)[..|b2|];
      assert digest(Last(c1)) == Blocks(c1, digest)[|b1|..] && digest(Last(c2)) == Blocks(c2, digest)[|b2|..];
      BlocksAligned(c1[..|c1| - 1], c2[..|c2| - 1], digest, w);
    }
  }

  /** Two selections with different content sequences get the same result only by a collision of the
      digest, and the collision is among the inputs that were digested. */
  lemma SameHashMeansSameContents(c1: seq<Bytes>, c2: seq<Bytes>, digest: Bytes -> Bytes, w: nat)
    returns (x: Bytes, y: Bytes)
    requires Width(digest, w) && c1 != c2
    requires digest(Blocks(c1, digest)) == digest(Blocks(c2, digest))
    ensures x != y && digest(x) == digest(y)
    ensures (x == Blocks(c1, digest) && y == Blocks(c2, digest)) || (x in c1 && y in c2)
  {
    x, y := Blocks(c1, digest), Blocks(c2, digest);
    if x == y {
      BlocksAligned(c1, c2, digest, w);
      var i :| 0 <= i < |c1| && c1[i] != c2[i];
      x, y := c1[i], c2[i];
    }
  }

  /** Two selections have the same content sequence exactly when their listings agree position by position. */
  lemma SameContentsIff(files: Files, l: seq<string>, files': Files, l': seq<string>)
    requires (forall p <- l :: p in files) && forall p <- l' :: p in files'
    requires Contents(files, l).Some? && Contents(files', l').Some?
    ensures Contents(files, l) == Contents(files', l')
       <==> |l| == |l'| && forall i :: 0 <= i < |l| ==> files[l[i]] == files'[l'[i]]
  {
  }

  /** So readable selections get equal results if and only if the contents in the order of the paths are
      equal, up to a collision of the digest among the digested inputs. */
  lemma EqualHashIffEqualContents(files: Files, l: seq<string>, files': Files, l': seq<string>,
                                  digest: Bytes -> Bytes, w: nat)
    returns (x: Bytes, y: Bytes)
    requires (forall p <- l :: p in files) && forall p <- l' :: p in files'
    requires Contents(files, l).Some? && Contents(files', l').Some? && Width(digest, w)
    ensures var c, c' := Contents(files, l).value, Contents(files', l').value;
      (x == Blocks(c, digest) && y == Blocks(c', digest)) || (x in c && y in c')
    ensures (Hashed(files, l, digest) == Hashed(files', l', digest) <==> Contents(files, l) == Contents(files', l'))
         || (x != y && digest(x) == digest(y))
  {
    var c, c' := Contents(files, l).value, Contents(files', l').value;
    if c != c' && Hashed(files, l, digest) == Hashed(files', l', digest) {
      x, y := SameHashMeansSameContents(c, c', digest, w);
    } else {
      x, y := Blocks(c, digest), Blocks(c', digest);
    }
  }

  /** The names do not enter the hash: renaming the only file of a selection is not seen, although one file
      is removed and another one is added. */
  lemma RenameIsNotSeen(a: string, b: string, content: Bytes, before: (string, string) -> bool, digest: Bytes -> Bytes)
    requires a != b
    ensures var files, files' := map[a := Some(content)], map[b := Some(content)];
      && files != files' && IsListing(files, [a], before) && IsListing(files', [b], before)
      && Hashed(files, [a], digest) == Hashed(files', [b], digest)
  {
    var files, files' := map[a := Some(content)], map[b := Some(content)];
    assert a in files && a !in files';
    SameContentsIff(files, [a], files', [b]);
  }

  /** Editing, adding or removing a selected file changes the content sequence, so by the lemma above
      it changes the result, up to a collision. */
  lemma AnyChangeIsSeen(files: Files, files': Files, path: string, l: seq<string>, l': seq<string>,
                        before: (string, string) -> bool)
    requires StrictOrder(before) && IsListing(files, l, before) && IsListing(files', l', before)
    requires Contents(files, l).Some? && Contents(files', l').Some?
    requires Lookup(files, path) != Lookup(files', path) && files - {path} == files' - {path}
    ensures Contents(files, l).value != Contents(files', l').value
  {
    if path in files && path in files' {
      SameKeys(files, files', path);
      ListingIsUnique(files, l, l', before);
      var i :| 0 <= i < |l| && l[i] == path;
      assert files[path] != files'[path];
    } else {
      OneKeyMore(files, files', path);
      ListingLength(files, l, before);
      ListingLength(files', l', before);
    }
  }

  lemma SameKeys(files: Files, files': Files, path: string)
    requires path in files && path in files' && files - {path} == files' - {path}
    ensures files.Keys == files'.Keys
  {
    assert files.Keys == (files - {path}).Keys + {path};
    assert files'.Keys == (files' - {path}).Keys + {path};
  }

  lemma OneKeyMore(files: Files, files': Files, path: string)
    requires path in files <==> path !in files'
    requires files - {path} == files' - {path}
    ensures |files.Keys| != |files'.Keys|
  {
    var others := (files - {path}).Keys;
    assert others == (files' - {path}).Keys;
    assert files.Keys == if path in files then others + {path} else others;
    assert files'.Keys == if path in files' then others + {path} else others;
  }

  lemma {:induction false} ListingLength(files: Files, l: seq<string>, before: (string, string) -> bool)
    requires StrictOrder(before) && IsListing(files, l, before)
    ensures |l| == |files.Keys|
    decreases |l|
  {
    if l == [] {
      assert files.Keys == {};
    } else {
      ListingOfRest(files, l, before);
      ListingLength(files - {l[0]}, l[1..], before);
      assert l[0] in files && files.Keys == (files - {l[0]}).Keys + {l[0]};
    }
  }
}
