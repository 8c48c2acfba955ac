/**
 * `SPIUtils`: turning sets of id objects into the JPQL parameter lists of the services.
 * A Java set is given here as the sequence its iterator yields.
 */
module SpiUtils {
  import opened Wrappers

  /** What asking an id object for its id does: an id, `null`, or an `IllegalStateException`. */
  datatype Resolution = Resolved(id: string) | NullId | IllegalState

  /** The user ids of `getUserList(Set<UserId>, token)`: nulls and ids that throw are skipped. */
  function UserList<U>(ids: seq<U>, resolve: U -> Resolution): seq<string>
  {
    if ids == [] then []
    else
      var front := UserList(ids[..|ids| - 1], resolve);
      match resolve(ids[|ids| - 1])
      case Resolved(uid) => front + [uid]
      case _ => front
  }

  /** `getUserList(Set<UserId>, token)`; the map the source fills and never reads is kept. */
  method GetUserList<U>(userIds: seq<U>, resolve: U -> Resolution) returns (paramList: seq<string>)
    ensures paramList == UserList(userIds, resolve)
  {
    var userIdMap: map<string, string> := map[];
    paramList := [];
    var i := 0;
    while i < |userIds|
      invariant 0 <= i <= |userIds|
      invariant paramList == UserList(userIds[..i], resolve)
    {
      assert userIds[..i + 1][..i] == userIds[..i];
      match resolve(userIds[i]) {
        case Resolved(uid) =>
          userIdMap := userIdMap[uid := uid];
          paramList := paramList + [uid];
        case NullId =>
        case IllegalState =>
      }
      i := i + 1;
    }
    assert userIds[..i] == userIds;
  }

  /** The ids of `getSpaceList`, `getApplicationList` and `getDocumentList`: ids that throw
      are skipped, but a `null` id (`None`) is kept. */
  function IdList<I>(ids: seq<I>, resolve: I -> Resolution): seq<Option<string>>
  {
    if ids == [] then []
    else
      var front := IdList(ids[..|ids| - 1], resolve);
      match resolve(ids[|ids| - 1])
      case Resolved(sid) => front + [Some(sid)]
      case NullId => front + [None]
      case IllegalState => front
  }

  /** `getSpaceList` / `getApplicationList` / `getDocumentList`. */
  method GetIdList<I>(ids: seq<I>, resolve: I -> Resolution) returns (paramList: seq<Option<string>>)
    ensures paramList == IdList(ids, resolve)
  {
    var idMap: map<Option<string>, Option<string>> := map[];
    paramList := [];
    var i := 0;
    while i < |ids|
      invariant 0 <= i <= |ids|
      invariant paramList == IdList(ids[..i], resolve)
    {
      assert ids[..i + 1][..i] == ids[..i];
      match resolve(ids[i]) {
        case Resolved(sid) =>
          idMap := idMap[Some(sid) := Some(sid)];
          paramList := paramList + [Some(sid)];
        case NullId =>
          idMap := idMap[None := None];
          paramList := paramList + [None];
        case IllegalState =>
      }
      i := i + 1;
    }
    assert ids[..i] == ids;
  }

  /** The non-null entries of a list of optional ids, in order. */
  function NonNull(xs: seq<Option<string>>): seq<string> {
    if xs == [] then []
    else if xs[|xs| - 1].Some? then NonNull(xs[..|xs| - 1]) + [xs[|xs| - 1].value]
    else NonNull(xs[..|xs| - 1])
  }

  /** The user list is the id list with its nulls removed. */
  lemma {:induction false} UserListIsNonNullIdList<U>(ids: seq<U>, resolve: U -> Resolution)
    ensures UserList(ids, resolve) == NonNull(IdList(ids, resolve))
  {
    if ids != [] {
      var front := ids[..|ids| - 1];
      UserListIsNonNullIdList(front, resolve);
      var f := IdList(front, resolve);
      match resolve(ids[|ids| - 1])
      case Resolved(uid) =>
        assert (f + [Some(uid)])[..|f|] == f;
      case NullId =>
        assert (f + [None])[..|f|] == f;
      case IllegalState =>
    }
  }

  /** Every entry of the id list comes from one not-throwing element, and every such element
      contributes, so the list has exactly as many entries as those elements. */
  lemma {:induction false} IdListMembers<I>(ids: seq<I>, resolve: I -> Resolution, x: Option<string>)
    ensures x in IdList(ids, resolve) <==>
      exists i :: 0 <= i < |ids| && resolve(ids[i]) == (if x.Some? then Resolved(x.value) else NullId)
  {
    var want := if x.Some? then Resolved(x.value) else NullId;
    if ids != [] {
      var front := ids[..|ids| - 1];
      IdListMembers(front, resolve, x);
      if x in IdList(ids, resolve) && x !in IdList(front, resolve) {
        assert resolve(ids[|ids| - 1]) == want;
      }
      if x in IdList(front, resolve) {
        var i :| 0 <= i < |front| && resolve(front[i]) == want;
        assert resolve(ids[i]) == want;
      }
      if exists i :: 0 <= i < |ids| && resolve(ids[i]) == want {
        var i :| 0 <= i < |ids| && resolve(ids[i]) == want;
        if i < |front| {
          assert resolve(front[i]) == want;
        }
      }
    }
  }

  /** No element yields more than one entry. */
  lemma {:induction false} IdListLength<I>(ids: seq<I>, resolve: I -> Resolution)
    ensures |IdList(ids, resolve)| <= |ids|
    ensures |UserList(ids, resolve)| <= |IdList(ids, resolve)|
  {
    if ids != [] {
      IdListLength(ids[..|ids| - 1], resolve);
    }
  }

  /** The list follows the iteration order: it distributes over concatenation. */
  lemma {:induction false} IdListAppend<I>(xs: seq<I>, ys: seq<I>, resolve: I -> Resolution)
    ensures IdList(xs + ys, resolve) == IdList(xs, resolve) + IdList(ys, resolve)
  {
    if ys == [] {
      assert xs + ys == xs;
    } else {
      var ys' := ys[..|ys| - 1];
      assert (xs + ys)[..|xs + ys| - 1] == xs + ys';
      IdListAppend(xs, ys', resolve);
    }
  }

  /** Distinct id objects can name the same user: the user list is not a set, and both
      resolutions are kept in order. */
  lemma UserListKeepsDuplicates<U>(a: U, b: U, uid: string, resolve: U -> Resolution)
    requires resolve(a) == Resolved(uid) && resolve(b) == Resolved(uid)
    ensures UserList([a, b], resolve) == [uid, uid]
  {
    assert [a, b][..1] == [a];
    assert [a][..0] == [];
    assert UserList([a], resolve) == [uid];
  }

  /** `getUserList(UserId, token)`: the one id, which may be `null` or may throw. */
  function SingleUser(resolution: Resolution): (r: Result<Option<string>, ()>)
    ensures r.Err? <==> resolution.IllegalState?
    ensures r == Ok(None) <==> resolution.NullId?
    ensures resolution.Resolved? ==> r == Ok(Some(resolution.id))
  {
    match resolution
    case Resolved(uid) => Ok(Some(uid))
    case NullId => Ok(None)
    case IllegalState => Err(())
  }

  /** `toList(s)`: every element of the set exactly once, in iteration order. */
  method ToList<T>(s: set<T>) returns (l: seq<T>)
    ensures |l| == |s|
    ensures forall x :: x in l <==> x in s
    ensures forall i, j :: 0 <= i < j < |l| ==> l[i] != l[j]
  {
    l := [];
    var rest := s;
    while rest != {}
      invariant forall x :: x in l <==> x in s && x !in rest
      invariant rest <= s
      invariant forall i, j :: 0 <= i < j < |l| ==> l[i] != l[j]
      invariant |l| + |rest| == |s|
      decreases |rest|
    {
      var x :| x in rest;
      l := l + [x];
      rest := rest - {x};
    }
  }
}
