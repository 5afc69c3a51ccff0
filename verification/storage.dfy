/**
 * lib/storage.ts: the saved playlists, kept as one list under one storage
 * key. The store object stands for what that key holds; `savePlaylist`
 * upserts by id and `deletePlaylist` removes by id.
 */
module Storage {
  import opened Wrappers
  import opened Types

  /** `findIndex((p) => p.id === id)`: the first playlist with that id, if any. */
  function FindFirst(ps: seq<Playlist>, id: string): (r: Option<nat>)
    ensures r.Some? ==> r.value < |ps| && ps[r.value].id == id
    ensures r.Some? ==> forall j | 0 <= j < r.value :: ps[j].id != id
    ensures r.None? <==> forall j | 0 <= j < |ps| :: ps[j].id != id
    decreases |ps|
  {
    if ps == [] then None
    else if ps[0].id == id then Some(0)
    else match FindFirst(ps[1..], id)
      case None => None
      case Some(i) => Some(i + 1)
  }

  /** Only one index is the first with a given id. */
  lemma FirstIsUnique(ps: seq<Playlist>, id: string, k: nat)
    requires k < |ps| && ps[k].id == id
    requires forall j | 0 <= j < k :: ps[j].id != id
    ensures FindFirst(ps, id) == Some(k)
  {
  }

  /** `findIndex`: the index of the first playlist with that id, or -1. */
  method FindIndex(ps: seq<Playlist>, id: string) returns (r: int)
    ensures -1 <= r < |ps|
    ensures r >= 0 ==> ps[r].id == id && forall j | 0 <= j < r :: ps[j].id != id
    ensures r == -1 <==> forall j | 0 <= j < |ps| :: ps[j].id != id
  {
    var i := 0;
    while i < |ps|
      invariant 0 <= i <= |ps|
      invariant forall j | 0 <= j < i :: ps[j].id != id
    {
      if ps[i].id == id {
        return i;
      }
      i := i + 1;
    }
    return -1;
  }

  /**
   * The list after `savePlaylist(playlist)` at time `now`: the first
   * playlist with the same id is replaced by the saved one stamped with
   * `updatedAt: now`; a playlist with a new id is appended as it is.
   */
  function Upsert(ps: seq<Playlist>, p: Playlist, now: nat): seq<Playlist> {
    match FindFirst(ps, p.id)
    case Some(i) => ps[i := p.(updatedAt := now)]
    case None => ps + [p]
  }

  /** The list after `deletePlaylist(id)`: `filter((p) => p.id !== id)`. */
  function RemoveById(ps: seq<Playlist>, id: string): seq<Playlist>
    decreases |ps|
  {
    if ps == [] then []
    else RemoveById(ps[..|ps| - 1], id) + (if ps[|ps| - 1].id != id then [ps[|ps| - 1]] else [])
  }

  /** No two saved playlists share an id. */
  predicate DistinctIds(ps: seq<Playlist>) {
    forall i, j | 0 <= i < j < |ps| :: ps[i].id != ps[j].id
  }

  /** The saved playlists. */
  class PlaylistStore {
    var playlists: seq<Playlist>

    /** Nothing stored yet: `getPlaylists()` returns `[]`. */
    constructor()
      ensures playlists == []
    {
      playlists := [];
    }

    /** `getPlaylists`. */
    method GetPlaylists() returns (r: seq<Playlist>)
      ensures r == playlists
    {
      r := playlists;
    }

    /** `savePlaylist(playlist)` with `new Date()` read as `now`. */
    method SavePlaylist(p: Playlist, now: nat)
      modifies this
      ensures playlists == Upsert(old(playlists), p, now)
      ensures DistinctIds(old(playlists)) ==> DistinctIds(playlists)
    {
      var existing := FindIndex(playlists, p.id);
      if existing >= 0 {
        FirstIsUnique(playlists, p.id, existing);
        playlists := playlists[existing := p.(updatedAt := now)];
      } else {
        playlists := playlists + [p];
      }
      UpsertKeepsDistinct(old(playlists), p, now);
    }

    /** `deletePlaylist(id)`. */
    method DeletePlaylist(id: string)
      modifies this
      ensures playlists == RemoveById(old(playlists), id)
      ensures DistinctIds(old(playlists)) ==> DistinctIds(playlists)
    {
      var kept := KeepOthers(playlists, id);
      RemoveKeepsDistinct(playlists, id);
      playlists := kept;
    }
  }

  /** The filter loop of `deletePlaylist`. */
  method KeepOthers(ps: seq<Playlist>, id: string) returns (r: seq<Playlist>)
    ensures r == RemoveById(ps, id)
  {
    r := [];
    var i := 0;
    while i < |ps|
      invariant 0 <= i <= |ps|
      invariant r == RemoveById(ps[..i], id)
    {
      assert ps[..i + 1][..i] == ps[..i];
      if ps[i].id != id {
        r := r + [ps[i]];
      }
      i := i + 1;
    }
    assert ps[..i] == ps;
  }

  // ----- Saving -----

  /** Saving a playlist with a new id appends it as it is: one more entry, the others unchanged. */
  lemma UpsertNew(ps: seq<Playlist>, p: Playlist, now: nat)
    requires forall j | 0 <= j < |ps| :: ps[j].id != p.id
    ensures var r := Upsert(ps, p, now);
      |r| == |ps| + 1 && r[..|ps|] == ps && r[|ps|] == p
  {
    assert FindFirst(ps, p.id).None?;
  }

  /**
   * Saving a playlist whose id is already stored replaces the first entry
   * with that id, and only it, by the saved playlist stamped `now`.
   */
  lemma UpsertExisting(ps: seq<Playlist>, p: Playlist, now: nat, k: nat)
    requires k < |ps| && ps[k].id == p.id
    requires forall j | 0 <= j < k :: ps[j].id != p.id
    ensures var r := Upsert(ps, p, now);
      |r| == |ps| && r[k] == p.(updatedAt := now)
      && forall j | 0 <= j < |ps| && j != k :: r[j] == ps[j]
  {
    FirstIsUnique(ps, p.id, k);
  }

  /** After saving, looking the id up finds the saved playlist (stamped `now` when it replaced one). */
  lemma UpsertThenFind(ps: seq<Playlist>, p: Playlist, now: nat)
    ensures var r := Upsert(ps, p, now); var i := FindFirst(r, p.id);
      i.Some? && (r[i.value] == p || r[i.value] == p.(updatedAt := now))
  {
    var r := Upsert(ps, p, now);
    match FindFirst(ps, p.id)
    case Some(k) =>
      FirstIsUnique(r, p.id, k);
    case None =>
      FirstIsUnique(r, p.id, |ps|);
  }

  /** Saving keeps ids distinct. */
  lemma UpsertKeepsDistinct(ps: seq<Playlist>, p: Playlist, now: nat)
    ensures DistinctIds(ps) ==> DistinctIds(Upsert(ps, p, now))
  {
    var r := Upsert(ps, p, now);
    if DistinctIds(ps) {
      forall i, j | 0 <= i < j < |r| ensures r[i].id != r[j].id {
        match FindFirst(ps, p.id)
        case Some(k) =>
          assert r[i].id == ps[i].id && r[j].id == ps[j].id;
        case None =>
          if j == |ps| {
            assert r[i] == ps[i];
          } else {
            assert r[i] == ps[i] && r[j] == ps[j];
          }
      }
    }
  }

  /**
   * Saving the same playlist again at a later time replaces the entry the
   * first save left, and only it, by the playlist stamped `later`.
   */
  lemma UpsertTwice(ps: seq<Playlist>, p: Playlist, now: nat, later: nat)
    ensures var once := Upsert(ps, p, now); var f := FindFirst(once, p.id);
      f.Some? && (once[f.value] == p || once[f.value] == p.(updatedAt := now))
      && Upsert(once, p, later) == once[f.value := p.(updatedAt := later)]
  {
    UpsertThenFind(ps, p, now);
  }

  // ----- Deleting -----

  /**
   * Deleting removes every playlist with the id and keeps every other one
   * as often as it occurred.
   */
  lemma {:induction false} RemoveCounts(ps: seq<Playlist>, id: string, x: Playlist)
    ensures multiset(RemoveById(ps, id))[x] == if x.id == id then 0 else multiset(ps)[x]
    decreases |ps|
  {
    if ps != [] {
      var init := ps[..|ps| - 1];
      RemoveCounts(init, id, x);
      assert ps == init + [ps[|ps| - 1]];
    }
  }

  /** Deleting works list piece by list piece, so the kept playlists stay in their order. */
  lemma {:induction false} RemoveAppend(a: seq<Playlist>, b: seq<Playlist>, id: string)
    ensures RemoveById(a + b, id) == RemoveById(a, id) + RemoveById(b, id)
    decreases |b|
  {
    if b == [] {
      assert a + b == a;
    } else {
      var init := b[..|b| - 1];
      RemoveAppend(a, init, id);
      assert (a + b)[..|a + b| - 1] == a + init;
    }
  }

  /** An entry of the result is an entry of the list without the id. */
  lemma RemoveSound(ps: seq<Playlist>, id: string, x: Playlist)
    requires x in RemoveById(ps, id)
    ensures x in ps && x.id != id
  {
    RemoveCounts(ps, id, x);
  }

  /** Deleting an id that is not stored changes nothing. */
  lemma {:induction false} RemoveAbsent(ps: seq<Playlist>, id: string)
    requires forall j | 0 <= j < |ps| :: ps[j].id != id
    ensures RemoveById(ps, id) == ps
    decreases |ps|
  {
    if ps != [] {
      RemoveAbsent(ps[..|ps| - 1], id);
    }
  }

  /** Deleting twice is deleting once. */
  lemma RemoveIdempotent(ps: seq<Playlist>, id: string)
    ensures RemoveById(RemoveById(ps, id), id) == RemoveById(ps, id)
  {
    var r := RemoveById(ps, id);
    forall j | 0 <= j < |r| ensures r[j].id != id {
      RemoveSound(ps, id, r[j]);
    }
    RemoveAbsent(r, id);
  }

  /** Deleting keeps ids distinct. */
  lemma {:induction false} RemoveKeepsDistinct(ps: seq<Playlist>, id: string)
    ensures DistinctIds(ps) ==> DistinctIds(RemoveById(ps, id))
    decreases |ps|
  {
    if ps != [] && DistinctIds(ps) {
      var init := ps[..|ps| - 1];
      var last := ps[|ps| - 1];
      RemoveKeepsDistinct(init, id);
      var before := RemoveById(init, id);
      if last.id != id {
        forall i | 0 <= i < |before| ensures before[i].id != last.id {
          RemoveSound(init, id, before[i]);
          var k :| 0 <= k < |init| && init[k] == before[i];
          assert ps[k] == init[k];
        }
      }
    }
  }

  /** Replacing an entry by another with the same deleted id does not change what deleting keeps. */
  lemma {:induction false} RemoveIgnoresReplaced(ps: seq<Playlist>, id: string, k: nat, q: Playlist)
    requires k < |ps| && ps[k].id == id && q.id == id
    ensures RemoveById(ps[k := q], id) == RemoveById(ps, id)
    decreases |ps|
  {
    var init := ps[..|ps| - 1];
    if k < |ps| - 1 {
      assert ps[k := q][..|ps| - 1] == init[k := q];
      RemoveIgnoresReplaced(init, id, k, q);
    } else {
      assert ps[k := q][..|ps| - 1] == init;
    }
  }

  /** Saving and then deleting the same id leaves what deleting alone leaves. */
  lemma RemoveAfterUpsert(ps: seq<Playlist>, p: Playlist, now: nat)
    ensures RemoveById(Upsert(ps, p, now), p.id) == RemoveById(ps, p.id)
  {
    match FindFirst(ps, p.id)
    case Some(k) =>
      RemoveIgnoresReplaced(ps, p.id, k, p.(updatedAt := now));
    case None =>
      assert (ps + [p])[..|ps|] == ps;
  }
}
