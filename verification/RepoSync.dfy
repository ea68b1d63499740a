/** internal/sync/build.go: clone or fetch, decided by the metadata file, over any sequence of syncs. */
module RepoSync {
  import opened Wrappers

  /** A provider call: done, refused in its response, or failed as a call. */
  datatype GitOutcome = Done | Refused | Failed

  /** Writing the metadata file; a failed write may have created the file. */
  datatype SaveOutcome = Saved | ChecksumFailed | EncodeFailed | WriteFailed(created: bool)

  /** What one sync would meet at each of its calls. */
  datatype Weather = Weather(clone: GitOutcome, fetch: GitOutcome, save: SaveOutcome)

  /** The calls one sync has made. */
  datatype Record = Record(clone: Option<GitOutcome>, fetch: Option<GitOutcome>, save: Option<SaveOutcome>)

  datatype SyncError = CloneError | FetchError | SaveError

  /** One worker host's copy of a repository; only syncs write the metadata file. */
  class RepositoryHost {
    var metadataExists: bool
    var history: seq<Record>

    constructor ()
      ensures !metadataExists && history == []
    {
      metadataExists, history := false, [];
    }

    /** createMetadataFile. */
    method CreateMetadataFile(save: SaveOutcome) returns (ok: bool)
      modifies this`metadataExists
      ensures ok == save.Saved?
      ensures metadataExists == (old(metadataExists) || save.Saved? || save == WriteFailed(true))
    {
      if save.ChecksumFailed? || save.EncodeFailed? { return false; }
      if save.Saved? || save.created { metadataExists := true; }
      return save.Saved?;
    }

    method SyncRepository(now: Weather) returns (problem: Option<SyncError>)
      modifies this
      ensures problem.None? <==> (old(metadataExists) || now.clone.Done?) && now.fetch.Done? && now.save.Saved?
      ensures problem == Some(CloneError) <==> !old(metadataExists) && !now.clone.Done?
      ensures problem == Some(FetchError) <==> (old(metadataExists) || now.clone.Done?) && !now.fetch.Done?
      ensures problem == Some(SaveError) <==>
                (old(metadataExists) || now.clone.Done?) && now.fetch.Done? && !now.save.Saved?
      ensures |history| == |old(history)| + 1 && history[..|old(history)|] == old(history)
      ensures Faithful(old(metadataExists), now, history[|old(history)|])
      ensures history == old(history) + [Made(old(metadataExists), now)]
      ensures metadataExists == After(old(metadataExists), now)
      ensures problem == Problem(old(metadataExists), now)
    {
      var record := Record(None, None, None);
      if !metadataExists {
        record := record.(clone := Some(now.clone));
        if !now.clone.Done? {
          history := history + [record];
          return Some(CloneError);
        }
        record := record.(fetch := Some(now.fetch));
        if !now.fetch.Done? {
          history := history + [record];
          return Some(FetchError);
        }
      } else {
        record := record.(fetch := Some(now.fetch));
        if !now.fetch.Done? {
          history := history + [record];
          return Some(FetchError);
        }
      }
      var ok := CreateMetadataFile(now.save);
      history := history + [record.(save := Some(now.save))];
      if !ok { return Some(SaveError); }
      return None;
    }
  }

  /**
   * The calls of one sync: a clone exactly without the metadata file; a fetch exactly when no clone was needed or it
   * was done; a write exactly after a fetch that was done; each with the outcome met.
   */
  predicate Faithful(existed: bool, now: Weather, r: Record) {
    && (r.clone.Some? <==> !existed) && (r.clone.Some? ==> r.clone.value == now.clone)
    && (r.fetch.Some? <==> existed || now.clone.Done?) && (r.fetch.Some? ==> r.fetch.value == now.fetch)
    && (r.save.Some? <==> r.fetch == Some(Done)) && (r.save.Some? ==> r.save.value == now.save)
  }

  // ----- one sync as a function -----

  function Made(exists_: bool, now: Weather): Record {
    var clone := if exists_ then None else Some(now.clone);
    if clone.Some? && !now.clone.Done? then Record(clone, None, None)
    else Record(clone, Some(now.fetch), if now.fetch.Done? then Some(now.save) else None)
  }

  /** The clone, the fetch and the write that would make the metadata file exist all take place. */
  predicate Establishes(now: Weather) {
    now.clone.Done? && now.fetch.Done? && (now.save.Saved? || now.save == WriteFailed(true))
  }

  predicate After(exists_: bool, now: Weather) {
    exists_ || Establishes(now)
  }

  function Problem(exists_: bool, now: Weather): Option<SyncError> {
    if !exists_ && !now.clone.Done? then Some(CloneError)
    else if !now.fetch.Done? then Some(FetchError)
    else if !now.save.Saved? then Some(SaveError)
    else None
  }

  /** The records of a sequence of syncs, and whether the metadata file exists after it. */
  function Records(exists_: bool, days: seq<Weather>): seq<Record>
    decreases days
  {
    if days == [] then [] else [Made(exists_, days[0])] + Records(After(exists_, days[0]), days[1..])
  }

  function Finally(exists_: bool, days: seq<Weather>): bool
    decreases days
  {
    if days == [] then exists_ else Finally(After(exists_, days[0]), days[1..])
  }

  // ----- over any sequence of syncs -----

  predicate ClonedAndFetched(r: Record) {
    r.clone == Some(Done) && r.fetch == Some(Done)
  }

  lemma {:induction false} RecordCount(exists_: bool, days: seq<Weather>)
    ensures |Records(exists_, days)| == |days|
    decreases days
  {
    if days != [] { RecordCount(After(exists_, days[0]), days[1..]); }
  }

  /** With the metadata file there, no sync clones, and the file stays. */
  lemma {:induction false} NeverClonesAgain(days: seq<Weather>)
    ensures Finally(true, days)
    ensures forall k :: 0 <= k < |Records(true, days)| ==> Records(true, days)[k].clone.None?
  {
    if days != [] {
      NeverClonesAgain(days[1..]);
    }
  }

  /**
   * From a host without the repository: when the metadata file exists, some sync has cloned and fetched with success
   * and reached the file, every sync up to it has cloned, and no later one has.
   */
  lemma {:induction false} MetadataMeansCloned(days: seq<Weather>)
    returns (k: nat)
    requires Finally(false, days)
    ensures |Records(false, days)| == |days| && k < |days|
    ensures ClonedAndFetched(Records(false, days)[k]) && Records(false, days)[k].save.Some?
    ensures forall j :: k < j < |days| ==> Records(false, days)[j].clone.None?
    ensures forall j :: 0 <= j <= k ==> Records(false, days)[j].clone.Some?
  {
    RecordCount(false, days);
    if After(false, days[0]) {
      k := 0;
      NeverClonesAgain(days[1..]);
    } else {
      k := MetadataMeansCloned(days[1..]);
      k := k + 1;
    }
  }

  /** The metadata file exists if and only if some sync would have established it. */
  lemma {:induction false} MetadataExactly(days: seq<Weather>)
    ensures Finally(false, days) <==> exists k :: 0 <= k < |days| && Establishes(days[k])
  {
    if days != [] {
      if Establishes(days[0]) {
        NeverClonesAgain(days[1..]);
      } else {
        MetadataExactly(days[1..]);
        forall k | 0 < k < |days| ensures Establishes(days[k]) <==> Establishes(days[1..][k - 1]) {
        }
      }
    }
  }

  /** Without the file every sync clones. */
  lemma {:induction false} NoMetadataMeansClones(days: seq<Weather>)
    requires !Finally(false, days)
    ensures forall k :: 0 <= k < |Records(false, days)| ==> Records(false, days)[k].clone.Some?
  {
    if days != [] {
      if After(false, days[0]) { NeverClonesAgain(days[1..]); }
      NoMetadataMeansClones(days[1..]);
    }
  }

  /**
   * A clone that succeeds before a fetch that does not leaves no metadata file. If cloning over an existing
   * clone is always refused, every later sync then fails in the clone, however well the fetches would go.
   */
  lemma WedgedAfterFailedFetch(first: Weather, days: seq<Weather>)
    requires first.clone.Done? && !first.fetch.Done?
    requires forall k :: 0 <= k < |days| ==> !days[k].clone.Done?
    ensures Problem(false, first) == Some(FetchError)
    ensures !Finally(false, [first] + days)
    ensures forall k :: 0 <= k < |days| ==> Problem(Finally(false, [first] + days[..k]), days[k]) == Some(CloneError)
  {
    StaysAway([first] + days);
    forall k | 0 <= k < |days| ensures !Finally(false, [first] + days[..k]) {
      StaysAway([first] + days[..k]);
    }
  }

  lemma {:induction false} StaysAway(days: seq<Weather>)
    requires forall k :: 0 <= k < |days| ==> !days[k].clone.Done? || !days[k].fetch.Done?
    ensures !Finally(false, days)
  {
    if days != [] { StaysAway(days[1..]); }
  }
}
