/**
 * EmbeddingManager: keeps the ids the embedding store holds for a profile,
 * the files already embedded and the files still waiting to be embedded.
 * The store itself is not modelled: `sync` returns the ids it asks the store
 * to remove, and the ids the store assigns are given per pending file.
 */
module Embeddings {
  import opened Wrappers
  import opened JavaText
  import opened Files
  import opened EmbeddableFiles

  /** The elements of `ids` that are not in `excluded`, in order (`removeAll`, and the `!contains` filter). */
  function Without(ids: seq<string>, excluded: seq<string>): seq<string>
    decreases |ids|
  {
    if ids == [] then []
    else
      var init, last := Without(ids[..|ids| - 1], excluded), ids[|ids| - 1];
      if last in excluded then init else init + [last]
  }

  /** An id survives `Without` exactly when it was there and is not excluded. */
  lemma {:induction false} WithoutMembers(ids: seq<string>, excluded: seq<string>, x: string)
    ensures x in Without(ids, excluded) <==> x in ids && x !in excluded
    decreases |ids|
  {
    if ids != [] {
      WithoutMembers(ids[..|ids| - 1], excluded, x);
      assert ids == ids[..|ids| - 1] + [ids[|ids| - 1]];
    }
  }

  /** The elements of `ids` that are in `owned`, in order. */
  function KeptIn(ids: seq<string>, owned: seq<string>): seq<string>
    decreases |ids|
  {
    if ids == [] then []
    else
      var init, last := KeptIn(ids[..|ids| - 1], owned), ids[|ids| - 1];
      if last in owned then init + [last] else init
  }

  /** An id is kept exactly when it was there and is owned. */
  lemma {:induction false} KeptInMembers(ids: seq<string>, owned: seq<string>, x: string)
    ensures x in KeptIn(ids, owned) <==> x in ids && x in owned
    decreases |ids|
  {
    if ids != [] {
      KeptInMembers(ids[..|ids| - 1], owned, x);
      assert ids == ids[..|ids| - 1] + [ids[|ids| - 1]];
    }
  }

  /**
   * Removing the stale ids (those not owned) keeps exactly the owned ones, and
   * the stale and kept ids together are the old ids, duplicates included.
   */
  lemma {:induction false} RemovingStaleKeepsOwned(ids: seq<string>, owned: seq<string>)
    ensures Without(ids, Without(ids, owned)) == KeptIn(ids, owned)
    ensures multiset(Without(ids, owned)) + multiset(KeptIn(ids, owned)) == multiset(ids)
    decreases |ids|
  {
    if ids != [] {
      var init, last := ids[..|ids| - 1], ids[|ids| - 1];
      assert ids == init + [last];
      RemovingStaleKeepsOwned(init, owned);
      forall x | x in init
        ensures x in Without(init, owned) <==> x in Without(ids, owned)
      {
        WithoutMembers(init, owned, x);
        WithoutMembers(ids, owned, x);
      }
      WithoutSameOn(init, Without(init, owned), Without(ids, owned));
      WithoutMembers(ids, owned, last);
    }
  }

  /** `Without` only looks at which elements are excluded. */
  lemma {:induction false} WithoutSameOn(ids: seq<string>, e1: seq<string>, e2: seq<string>)
    requires forall x :: x in ids ==> (x in e1 <==> x in e2)
    ensures Without(ids, e1) == Without(ids, e2)
    decreases |ids|
  {
    if ids != [] {
      WithoutSameOn(ids[..|ids| - 1], e1, e2);
    }
  }

  /** Nothing to remove means every id is kept. */
  lemma NoStaleKeepsAll(ids: seq<string>, owned: seq<string>)
    requires Without(ids, owned) == []
    ensures KeptIn(ids, owned) == ids
  {
    RemovingStaleKeepsOwned(ids, owned);
    WithoutNothing(ids);
  }

  lemma {:induction false} WithoutNothing(ids: seq<string>)
    ensures Without(ids, []) == ids
    decreases |ids|
  {
    if ids != [] {
      WithoutNothing(ids[..|ids| - 1]);
      assert ids == ids[..|ids| - 1] + [ids[|ids| - 1]];
    }
  }

  /** The ids owned by the files, file by file (the `flatMap` in `sync`). */
  function OwnedIds(files: seq<EmbeddableExternalFile>): seq<string>
    reads files
    decreases |files|
  {
    if files == [] then [] else OwnedIds(files[..|files| - 1]) + files[|files| - 1].embeddingIds
  }

  /** An id is owned exactly when one of the files holds it. */
  lemma {:induction false} OwnedIdsMembers(files: seq<EmbeddableExternalFile>, x: string)
    ensures x in OwnedIds(files) <==> exists i :: 0 <= i < |files| && x in files[i].embeddingIds
    decreases |files|
  {
    if files != [] {
      var init := files[..|files| - 1];
      OwnedIdsMembers(init, x);
      assert forall i :: 0 <= i < |init| ==> files[i] == init[i];
    }
  }

  /** The ids the store assigns to the first `n` pending files, in order. */
  function NewIds(storeIds: nat -> seq<string>, n: nat): seq<string> {
    if n == 0 then [] else NewIds(storeIds, n - 1) + storeIds(n - 1)
  }

  /** An id is new exactly when the store assigned it to one of the first `n` pending files. */
  lemma {:induction false} NewIdsFromStore(storeIds: nat -> seq<string>, n: nat, x: string)
    ensures x in NewIds(storeIds, n) <==> exists i :: 0 <= i < n && x in storeIds(i)
  {
    if n > 0 {
      NewIdsFromStore(storeIds, n - 1, x);
    }
  }

  /** The ExternalFile part of a file; null for a null file. */
  function PartOf(f: EmbeddableExternalFile?): ExternalFile? {
    if f == null then null else f.file
  }

  /** The values `addFile` accepts: a non-null file with a non-null, non-blank source path. */
  predicate Addable(f: EmbeddableExternalFile?)
    reads PartOf(f)
  {
    HasUsableSource(PartOf(f))
  }

  /** What `addFile` does with a file: rejects it, or adds it to the embedded or to the pending files. */
  datatype Placement = Refused | Embedded | Pending

  /** Where `addFile` puts the file, read from its current state. */
  function PlacementOf(f: EmbeddableExternalFile?): (p: Placement)
    reads f, PartOf(f)
    ensures p == Refused <==> !Addable(f)
  {
    if !Addable(f) then Refused
    else if f.IsEmbedded() then Embedded
    else Pending
  }

  /** The placement of every file, in order. */
  function Placements(files: seq<EmbeddableExternalFile?>): (ps: seq<Placement>)
    reads files, set f | f in files && f != null :: f.file
    ensures |ps| == |files|
    ensures forall i :: 0 <= i < |files| && ps[i] != Refused ==> files[i] != null
  {
    seq(|files|, i requires 0 <= i < |files| reads files, set f | f in files && f != null :: f.file
                => PlacementOf(files[i]))
  }

  /** How many files `setFiles` adds before one is rejected (all of them when none is). */
  function AcceptedCount(ps: seq<Placement>): (k: nat)
    ensures k <= |ps|
  {
    if ps == [] || ps[0] == Refused then 0 else 1 + AcceptedCount(ps[1..])
  }

  /** The placements before the count are all acceptances, and the one at the count is a rejection. */
  lemma {:induction false} AcceptedCountStops(ps: seq<Placement>)
    ensures forall i :: 0 <= i < AcceptedCount(ps) ==> ps[i] != Refused
    ensures AcceptedCount(ps) < |ps| ==> ps[AcceptedCount(ps)] == Refused
  {
    if ps != [] && ps[0] != Refused {
      AcceptedCountStops(ps[1..]);
    }
  }

  /** The first `n` files whose placement is `want`, in order. */
  function Placed(files: seq<EmbeddableExternalFile?>, ps: seq<Placement>, want: Placement, n: nat)
    : seq<EmbeddableExternalFile>
    requires n <= |files| && n <= |ps|
  {
    if n == 0 then []
    else if ps[n - 1] == want && files[n - 1] != null then Placed(files, ps, want, n - 1) + [files[n - 1]]
    else Placed(files, ps, want, n - 1)
  }

  /** Placing accepted files on the two lists loses none and adds none. */
  lemma {:induction false} SplitIsPermutation(files: seq<EmbeddableExternalFile?>, ps: seq<Placement>, n: nat)
    requires n <= |files| && n <= |ps|
    requires forall i :: 0 <= i < n ==> ps[i] != Refused
    requires forall i :: 0 <= i < n && ps[i] != Refused ==> files[i] != null
    ensures var placed: seq<EmbeddableExternalFile?> := Placed(files, ps, Embedded, n) + Placed(files, ps, Pending, n);
            multiset(placed) == multiset(files[..n])
  {
    if n > 0 {
      SplitIsPermutation(files, ps, n - 1);
      PlacedOneMore(files, ps, n);
      MultisetGrows(Placed(files, ps, Embedded, n) + Placed(files, ps, Pending, n),
                    Placed(files, ps, Embedded, n - 1) + Placed(files, ps, Pending, n - 1), files, n);
    }
  }

  /** Adding the next element of `s` to a sequence with the multiset of the elements before it. */
  lemma MultisetGrows<T>(grown: seq<T>, before: seq<T>, s: seq<T>, n: nat)
    requires 0 < n <= |s|
    requires multiset(grown) == multiset(before) + multiset{s[n - 1]}
    requires multiset(before) == multiset(s[..n - 1])
    ensures multiset(grown) == multiset(s[..n])
  {
    assert s[..n] == s[..n - 1] + [s[n - 1]];
  }

  /** An accepted file lands on exactly one of the two lists. */
  lemma PlacedOneMore(files: seq<EmbeddableExternalFile?>, ps: seq<Placement>, n: nat)
    requires 0 < n <= |files| && n <= |ps|
    requires ps[n - 1] != Refused && files[n - 1] != null
    ensures var placed: seq<EmbeddableExternalFile?> := Placed(files, ps, Embedded, n) + Placed(files, ps, Pending, n);
            var before: seq<EmbeddableExternalFile?> :=
              Placed(files, ps, Embedded, n - 1) + Placed(files, ps, Pending, n - 1);
            multiset(placed) == multiset(before) + multiset{files[n - 1]}
  {
    var embedded, pending := Placed(files, ps, Embedded, n - 1), Placed(files, ps, Pending, n - 1);
    var last: EmbeddableExternalFile := files[n - 1];
    if ps[n - 1] == Embedded {
      assert Placed(files, ps, Embedded, n) == embedded + [last];
      assert Placed(files, ps, Pending, n) == pending;
    } else {
      assert Placed(files, ps, Embedded, n) == embedded;
      assert Placed(files, ps, Pending, n) == pending + [last];
    }
  }

  /** The ExternalFile parts of the files, in order. */
  function Parts(files: seq<EmbeddableExternalFile>): seq<ExternalFile> {
    seq(|files|, i requires 0 <= i < |files| => files[i].file)
  }

  /** How many of the files can be read before the first read that fails (all of them when none fails). */
  function ReadablePrefix(parts: seq<ExternalFile>, homeFolder: string, fs: FileSystem): (k: nat)
    reads parts
    ensures k <= |parts|
    decreases |parts|
  {
    if parts == [] || parts[0].ReadContent(homeFolder, fs).None? then 0
    else 1 + ReadablePrefix(parts[1..], homeFolder, fs)
  }

  /** The files before the count can all be read, and the one at the count cannot. */
  lemma {:induction false} ReadablePrefixStops(parts: seq<ExternalFile>, homeFolder: string, fs: FileSystem)
    ensures forall i :: 0 <= i < ReadablePrefix(parts, homeFolder, fs) ==> parts[i].ReadContent(homeFolder, fs).Some?
    ensures ReadablePrefix(parts, homeFolder, fs) < |parts|
            ==> parts[ReadablePrefix(parts, homeFolder, fs)].ReadContent(homeFolder, fs).None?
    decreases |parts|
  {
    if parts != [] && parts[0].ReadContent(homeFolder, fs).Some? {
      ReadablePrefixStops(parts[1..], homeFolder, fs);
    }
  }

  /** No file occurs twice. */
  predicate DistinctFiles(files: seq<EmbeddableExternalFile>) {
    forall i, j :: 0 <= i < j < |files| ==> files[i] != files[j]
  }

  /** No file is on both lists. */
  predicate Separate(embedded: seq<EmbeddableExternalFile>, pending: seq<EmbeddableExternalFile>) {
    forall i, j :: 0 <= i < |embedded| && 0 <= j < |pending| ==> embedded[i] != pending[j]
  }

  /**
   * One turn of the ingest loop: `calculateAndStoreEmbedding` on the i-th pending
   * file with the ids the store hands back for it. When the files are distinct,
   * the earlier files keep the ids they were given.
   */
  method EmbedNext(pending: seq<EmbeddableExternalFile>, i: nat, homeFolder: string, fs: FileSystem,
                   storeIds: nat -> seq<string>) returns (ids: Option<seq<string>>)
    requires i < |pending|
    modifies pending[i]
    ensures var part: ExternalFile := pending[i].file; ids.None? <==> part.ReadContent(homeFolder, fs).None?
    ensures ids.Some? ==> ids.value == storeIds(i)
    ensures DistinctFiles(pending) && (forall j :: 0 <= j < i ==> old(pending[j].embeddingIds) == storeIds(j))
            ==> forall j :: 0 <= j < i || (j == i && ids.Some?) ==> pending[j].embeddingIds == storeIds(j)
  {
    ids := pending[i].CalculateAndStoreEmbedding(homeFolder, fs, storeIds(i));
  }

  /**
   * Ids kept because the embedded files own them, followed by the ids the
   * store gave the pending files, are all owned once the pending files join
   * the embedded ones.
   */
  lemma OwnedAfterIngest(kept: seq<string>, embedded: seq<EmbeddableExternalFile>,
                         pending: seq<EmbeddableExternalFile>, storeIds: nat -> seq<string>)
    requires forall x :: x in kept ==> x in OwnedIds(embedded)
    requires forall j :: 0 <= j < |pending| ==> pending[j].embeddingIds == storeIds(j)
    ensures forall x :: x in kept + NewIds(storeIds, |pending|) ==> x in OwnedIds(embedded + pending)
  {
    forall x | x in kept + NewIds(storeIds, |pending|)
      ensures x in OwnedIds(embedded + pending)
    {
      OwnedIdsMembers(embedded + pending, x);
      if x in kept {
        OwnedIdsMembers(embedded, x);
        var i :| 0 <= i < |embedded| && x in embedded[i].embeddingIds;
        assert (embedded + pending)[i] == embedded[i];
      } else {
        NewIdsFromStore(storeIds, |pending|, x);
        var j :| 0 <= j < |pending| && x in storeIds(j);
        assert (embedded + pending)[|embedded| + j] == pending[j];
      }
    }
  }

  class EmbeddingManager {
    var embeddingIds: seq<string>
    var embeddedFiles: seq<EmbeddableExternalFile>
    var pendingEmbeddingFiles: seq<EmbeddableExternalFile>

    /** Every tracked id belongs to some embedded file. */
    ghost predicate NoOrphans()
      reads this, set f | f in embeddedFiles
    {
      forall x :: x in embeddingIds ==> x in OwnedIds(embeddedFiles)
    }

    /** A new manager tracks nothing. */
    constructor ()
      ensures embeddingIds == [] && embeddedFiles == [] && pendingEmbeddingFiles == []
      ensures NoOrphans()
    {
      embeddingIds, embeddedFiles, pendingEmbeddingFiles := [], [], [];
    }

    /** `getEmbeddingIds`: a copy of the tracked ids. */
    function GetEmbeddingIds(): seq<string>
      reads this
    {
      embeddingIds
    }

    /** `getFiles`: the embedded files followed by the pending ones, as a new list. */
    function GetFiles(): (files: seq<EmbeddableExternalFile>)
      reads this
      ensures |files| == |embeddedFiles| + |pendingEmbeddingFiles|
      ensures files[..|embeddedFiles|] == embeddedFiles && files[|embeddedFiles|..] == pendingEmbeddingFiles
      ensures multiset(files) == multiset(embeddedFiles) + multiset(pendingEmbeddingFiles)
    {
      embeddedFiles + pendingEmbeddingFiles
    }

    /** `hasPendingEmbeddings`: some file still waits for its embedding. */
    predicate HasPendingEmbeddings()
      reads this
      ensures HasPendingEmbeddings() <==> |GetFiles()| > |embeddedFiles|
      ensures !HasPendingEmbeddings() ==> GetFiles() == embeddedFiles
    {
      pendingEmbeddingFiles != []
    }

    /** `clearPendingEmbeddings`: drops the waiting files; the embedded files and ids stay. */
    method ClearPendingEmbeddings()
      modifies this`pendingEmbeddingFiles
      ensures pendingEmbeddingFiles == []
      ensures !HasPendingEmbeddings()
    {
      pendingEmbeddingFiles := [];
    }

    /**
     * `addFile`: rejects a null file or one without a usable source path (the
     * exception, nothing changes), and otherwise appends it to the embedded or
     * the pending files according to whether it is embedded.
     */
    method AddFile(file: EmbeddableExternalFile?) returns (ok: bool)
      modifies this`embeddedFiles, this`pendingEmbeddingFiles
      ensures ok <==> old(PlacementOf(file)) != Refused
      ensures embeddedFiles
              == if old(PlacementOf(file)) == Embedded then old(embeddedFiles) + [file] else old(embeddedFiles)
      ensures pendingEmbeddingFiles
              == if old(PlacementOf(file)) == Pending then old(pendingEmbeddingFiles) + [file] else old(pendingEmbeddingFiles)
    {
      ok := Addable(file);
      if !ok {
        return;
      }
      if file.IsEmbedded() {
        embeddedFiles := embeddedFiles + [file];
      } else {
        pendingEmbeddingFiles := pendingEmbeddingFiles + [file];
      }
    }

    /**
     * `setFiles`: empties both lists and adds the files in order; the first
     * rejected file ends it with the exception, leaving the files before it added.
     */
    method SetFiles(files: seq<EmbeddableExternalFile?>) returns (ok: bool)
      modifies this`embeddedFiles, this`pendingEmbeddingFiles
      ensures ok <==> old(AcceptedCount(Placements(files))) == |files|
      ensures embeddedFiles
              == Placed(files, old(Placements(files)), Embedded, old(AcceptedCount(Placements(files))))
      ensures pendingEmbeddingFiles
              == Placed(files, old(Placements(files)), Pending, old(AcceptedCount(Placements(files))))
      ensures ok ==> multiset(GetFiles()) == multiset(files)
    {
      ghost var ps := Placements(files);
      AcceptedCountStops(ps);
      embeddedFiles := [];
      pendingEmbeddingFiles := [];
      ok := AddEach(files);
      if ok {
        assert files[..|files|] == files;
        SplitIsPermutation(files, ps, |files|);
      }
    }

    /** The loop of `setFiles`: `addFile` on each file, from empty lists, up to the first refusal. */
    method AddEach(files: seq<EmbeddableExternalFile?>) returns (ok: bool)
      requires embeddedFiles == [] && pendingEmbeddingFiles == []
      modifies this`embeddedFiles, this`pendingEmbeddingFiles
      ensures ok <==> old(AcceptedCount(Placements(files))) == |files|
      ensures embeddedFiles == Placed(files, old(Placements(files)), Embedded, old(AcceptedCount(Placements(files))))
      ensures pendingEmbeddingFiles == Placed(files, old(Placements(files)), Pending, old(AcceptedCount(Placements(files))))
    {
      ghost var ps := Placements(files);
      ghost var added := AcceptedCount(ps);
      AcceptedCountStops(ps);
      ok := true;
      for i := 0 to |files|
        invariant i <= added
        invariant embeddedFiles == Placed(files, ps, Embedded, i)
        invariant pendingEmbeddingFiles == Placed(files, ps, Pending, i)
      {
        assert PlacementOf(files[i]) == ps[i];
        ok := AddFile(files[i]);
        if !ok {
          assert i == added;
          return;
        }
      }
    }

    /**
     * `sync`: drops the ids no embedded file owns (returned, as sent to the
     * store), then embeds the pending files in order, the i-th getting
     * `storeIds(i)`, and moves them to the embedded files. A read failure ends
     * it with the exception: the ids of the files embedded so far stay, and
     * both lists are left as they were.
     */
    method Sync(homeFolder: string, fs: FileSystem, storeIds: nat -> seq<string>) returns (removed: seq<string>, ok: bool)
      modifies this, set f | f in pendingEmbeddingFiles
      ensures removed == Without(old(embeddingIds), old(OwnedIds(embeddedFiles)))
      ensures ok <==> old(ReadablePrefix(Parts(pendingEmbeddingFiles), homeFolder, fs)) == |old(pendingEmbeddingFiles)|
      ensures embeddingIds == KeptIn(old(embeddingIds), old(OwnedIds(embeddedFiles)))
                              + NewIds(storeIds, old(ReadablePrefix(Parts(pendingEmbeddingFiles), homeFolder, fs)))
      ensures ok ==> embeddedFiles == old(embeddedFiles) + old(pendingEmbeddingFiles) && pendingEmbeddingFiles == []
      ensures !ok ==> embeddedFiles == old(embeddedFiles) && pendingEmbeddingFiles == old(pendingEmbeddingFiles)
      ensures DistinctFiles(old(pendingEmbeddingFiles)) ==>
                forall i :: 0 <= i < old(ReadablePrefix(Parts(pendingEmbeddingFiles), homeFolder, fs)) ==>
                  old(pendingEmbeddingFiles)[i].embeddingIds == storeIds(i)
      ensures ok && DistinctFiles(old(pendingEmbeddingFiles)) && Separate(old(embeddedFiles), old(pendingEmbeddingFiles))
              ==> NoOrphans()
    {
      ghost var pending := pendingEmbeddingFiles;
      ghost var k := ReadablePrefix(Parts(pending), homeFolder, fs);
      removed := DropStaleIds();
      assert k == ReadablePrefix(Parts(pending), homeFolder, fs);
      ok := IngestAndPromote(homeFolder, fs, storeIds);
    }

    /** The first half of `sync`: removes the ids no embedded file owns and returns them. */
    method DropStaleIds() returns (removed: seq<string>)
      modifies this`embeddingIds
      ensures removed == Without(old(embeddingIds), OwnedIds(embeddedFiles))
      ensures embeddingIds == KeptIn(old(embeddingIds), OwnedIds(embeddedFiles))
      ensures NoOrphans()
    {
      var actualIds := OwnedIds(embeddedFiles);
      var deletedIds := Without(embeddingIds, actualIds);
      removed := deletedIds;
      RemovingStaleKeepsOwned(embeddingIds, actualIds);
      if deletedIds != [] {
        embeddingIds := Without(embeddingIds, deletedIds);
      } else {
        NoStaleKeepsAll(embeddingIds, actualIds);
      }
      forall x | x in embeddingIds
        ensures x in actualIds
      {
        KeptInMembers(old(embeddingIds), actualIds, x);
      }
    }

    /**
     * The second half of `sync`: embeds the pending files and, when every read
     * succeeds, moves them to the embedded files.
     */
    method IngestAndPromote(homeFolder: string, fs: FileSystem, storeIds: nat -> seq<string>) returns (ok: bool)
      modifies this, set f | f in pendingEmbeddingFiles
      ensures ok <==> old(ReadablePrefix(Parts(pendingEmbeddingFiles), homeFolder, fs)) == |old(pendingEmbeddingFiles)|
      ensures embeddingIds == old(embeddingIds) + NewIds(storeIds, old(ReadablePrefix(Parts(pendingEmbeddingFiles), homeFolder, fs)))
      ensures ok ==> embeddedFiles == old(embeddedFiles) + old(pendingEmbeddingFiles) && pendingEmbeddingFiles == []
      ensures !ok ==> embeddedFiles == old(embeddedFiles) && pendingEmbeddingFiles == old(pendingEmbeddingFiles)
      ensures DistinctFiles(old(pendingEmbeddingFiles)) ==>
                forall i :: 0 <= i < old(ReadablePrefix(Parts(pendingEmbeddingFiles), homeFolder, fs)) ==>
                  old(pendingEmbeddingFiles)[i].embeddingIds == storeIds(i)
      ensures (ok && DistinctFiles(old(pendingEmbeddingFiles)) && Separate(old(embeddedFiles), old(pendingEmbeddingFiles))
               && old(NoOrphans())) ==> NoOrphans()
    {
      ghost var embedded, pending := embeddedFiles, pendingEmbeddingFiles;
      ghost var owned, kept := OwnedIds(embeddedFiles), embeddingIds;
      ghost var wasClean := NoOrphans();
      ok := IngestPending(homeFolder, fs, storeIds);
      if !ok {
        return;
      }
      embeddedFiles := embeddedFiles + pendingEmbeddingFiles;
      pendingEmbeddingFiles := [];
      if DistinctFiles(pending) && Separate(embedded, pending) && wasClean {
        assert OwnedIds(embedded) == owned;
        OwnedAfterIngest(kept, embedded, pending, storeIds);
      }
    }

    /** The loop of `sync`: embeds the pending files in order until a read fails, collecting their ids. */
    method IngestPending(homeFolder: string, fs: FileSystem, storeIds: nat -> seq<string>) returns (ok: bool)
      modifies this`embeddingIds, set f | f in pendingEmbeddingFiles
      ensures ok <==> ReadablePrefix(Parts(pendingEmbeddingFiles), homeFolder, fs) == |pendingEmbeddingFiles|
      ensures embeddingIds == old(embeddingIds) + NewIds(storeIds, ReadablePrefix(Parts(pendingEmbeddingFiles), homeFolder, fs))
      ensures DistinctFiles(pendingEmbeddingFiles) ==>
                forall i :: 0 <= i < ReadablePrefix(Parts(pendingEmbeddingFiles), homeFolder, fs) ==>
                  pendingEmbeddingFiles[i].embeddingIds == storeIds(i)
    {
      var pending := pendingEmbeddingFiles;
      ghost var parts := Parts(pending);
      ReadablePrefixStops(parts, homeFolder, fs);
      for i := 0 to |pending|
        invariant embeddingIds == old(embeddingIds) + NewIds(storeIds, i)
        invariant i <= ReadablePrefix(parts, homeFolder, fs)
        invariant pendingEmbeddingFiles == pending
        invariant DistinctFiles(pending) ==> forall j :: 0 <= j < i ==> pending[j].embeddingIds == storeIds(j)
      {
        ghost var k := ReadablePrefix(parts, homeFolder, fs);
        var ids := EmbedNext(pending, i, homeFolder, fs, storeIds);
        assert k == ReadablePrefix(parts, homeFolder, fs);
        assert parts[i] == pending[i].file;
        if ids.None? {
          assert i == k;
          return false;
        }
        assert i < k;
        embeddingIds := embeddingIds + ids.value;
      }
      ok := true;
    }
  }
}
