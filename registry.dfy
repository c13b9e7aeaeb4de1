/// The backend registry: a copy-on-write list of backends whose instance IDs
/// are pairwise distinct (internal/backend/registry/registry.go). Every write
/// builds a new list and stores it in place of the old one.
module Registry {
  import opened Base
  import opened Backends

  /** The instance IDs of a snapshot, in order. */
  function Ids(s: seq<Backend>): (ids: seq<string>)
    ensures |ids| == |s| && forall i :: 0 <= i < |s| ==> ids[i] == s[i].id
  {
    if s == [] then [] else [s[0].id] + Ids(s[1..])
  }

  predicate DistinctIds(s: seq<Backend>) {
    forall i, j :: 0 <= i < j < |s| ==> s[i].id != s[j].id
  }

  /** Position of the first backend with instance ID `id`. */
  function FindById(s: seq<Backend>, id: string): (r: Option<nat>)
    ensures r.Some? ==> r.value < |s| && s[r.value].id == id
  {
    if s == [] then None
    else if s[0].id == id then Some(0)
    else match FindById(s[1..], id)
      case None => None
      case Some(i) => Some(i + 1)
  }

  /** The snapshot with every backend whose ID is `id` filtered out. */
  function Without(s: seq<Backend>, id: string): (r: seq<Backend>)
    ensures |r| <= |s|
    ensures forall i :: 0 <= i < |r| ==> r[i] in s && r[i].id != id
    ensures forall i :: 0 <= i < |s| && s[i].id != id ==> s[i] in r
  {
    if s == [] then []
    else if s[0].id == id then Without(s[1..], id)
    else [s[0]] + Without(s[1..], id)
  }

  /** Filtering an ID out of a snapshot with distinct IDs keeps the IDs distinct. */
  lemma {:induction false} WithoutKeepsDistinct(s: seq<Backend>, id: string)
    requires DistinctIds(s)
    ensures DistinctIds(Without(s, id))
  {
    if s != [] {
      WithoutKeepsDistinct(s[1..], id);
      var rest := Without(s[1..], id);
      if s[0].id != id {
        var r := Without(s, id);
        assert r == [s[0]] + rest;
        forall j | 0 < j < |r| ensures r[0].id != r[j].id {
          assert rest[j - 1] in s[1..];
        }
      }
    }
  }

  /** Filtering distributes over concatenation: the survivors keep their
      original relative order. */
  lemma {:induction false} WithoutKeepsOrder(s: seq<Backend>, t: seq<Backend>, id: string)
    ensures Without(s + t, id) == Without(s, id) + Without(t, id)
  {
    if s == [] {
      assert s + t == t;
    } else {
      assert (s + t)[0] == s[0] && (s + t)[1..] == s[1..] + t;
      WithoutKeepsOrder(s[1..], t, id);
    }
  }

  /** Filtering out an ID no backend has leaves the snapshot as it was. */
  lemma {:induction false} WithoutAbsentIsIdentity(s: seq<Backend>, id: string)
    requires id !in Ids(s)
    ensures Without(s, id) == s
  {
    if s != [] {
      assert Ids(s) == [s[0].id] + Ids(s[1..]);
      WithoutAbsentIsIdentity(s[1..], id);
      assert s == [s[0]] + s[1..];
    }
  }

  class BackendRegistry {
    /** The current snapshot. */
    var backends: seq<Backend>

    ghost predicate Valid()
      reads this
    {
      DistinctIds(backends)
    }

    constructor ()
      ensures Valid() && backends == [] && Len() == 0
    {
      backends := [];
    }

    /** The current snapshot; while the registry is valid, no two of its
        backends share an ID. */
    function GetBackends(): (r: seq<Backend>)
      reads this
      ensures Valid() ==> DistinctIds(r)
    {
      backends
    }

    /** The number of backends a snapshot taken now would hold. */
    function Len(): (n: nat)
      reads this
      ensures n == |GetBackends()|
    {
      |backends|
    }

    /** Linear scan of the snapshot for the first backend with instance ID `id`. */
    method GetBackendByID(id: string) returns (r: Option<Backend>)
      ensures r.None? <==> id !in Ids(backends)
      ensures r.Some? ==> r.value in backends && r.value.id == id
      ensures FindById(backends, id).Some? ==> r == Some(backends[FindById(backends, id).value])
    {
      var s := GetBackends();
      var i := 0;
      while i < |s|
        invariant 0 <= i <= |s|
        invariant forall k :: 0 <= k < i ==> s[k].id != id
      {
        if s[i].id == id {
          FirstMatch(s, i);
          return Some(s[i]);
        }
        i := i + 1;
      }
      FindByIdFindsRegistered(s, id);
      return None;
    }

    function GetBackendByIndex(index: int): (r: Result<Backend, Error>)
      reads this
      ensures r.Failure? <==> index < 0 || index >= Len()
      ensures r.Failure? ==> r.error == IndexOutOfRange
      ensures r.Success? ==> 0 <= index < Len() && r.value == backends[index]
    {
      if index < 0 || index >= |backends| then Failure(IndexOutOfRange)
      else Success(backends[index])
    }

    /** Registers a new backend unless one with the same instance ID exists.
        A successful add appends exactly one fresh, live backend at the end. */
    method AddBackend(hostname: string, addr: string, parseUrl: string -> Result<Url, string>)
      returns (err: Option<Error>)
      requires Valid()
      modifies this
      ensures Valid()
      ensures hostname in Ids(old(backends)) ==>
        err == Some(BackendAlreadyExists) && backends == old(backends)
      ensures hostname !in Ids(old(backends)) && parseUrl(addr).Failure? ==>
        err == Some(InvalidAddress(parseUrl(addr).error)) && backends == old(backends)
      ensures hostname !in Ids(old(backends)) && parseUrl(addr).Success? ==>
        err.None? && |backends| == |old(backends)| + 1 && Len() == old(Len()) + 1 &&
        backends[..|old(backends)|] == old(backends) &&
        var b := backends[|backends| - 1];
        fresh(b) && b.id == hostname && b.addr == parseUrl(addr).value && b.alive
    {
      var found := GetBackendByID(hostname);
      if found.Some? {
        return Some(BackendAlreadyExists);
      }
      var made := NewDefaultBackend(hostname, addr, parseUrl);
      if made.Failure? {
        return Some(made.error);
      }
      backends := GetBackends() + [made.value];
      return None;
    }

    /** Replaces the snapshot by one without any backend whose ID is `id`. */
    method RemoveBackendByID(id: string)
      requires Valid()
      modifies this
      ensures Valid()
      ensures backends == Without(old(backends), id)
      ensures id !in Ids(old(backends)) ==> backends == old(backends)
    {
      var s := GetBackends();
      var kept: seq<Backend> := [];
      var i := 0;
      while i < |s|
        invariant 0 <= i <= |s|
        invariant kept == Without(s[..i], id)
      {
        assert s[..i + 1] == s[..i] + [s[i]];
        WithoutKeepsOrder(s[..i], [s[i]], id);
        assert [s[i]][1..] == [];
        if s[i].id != id {
          kept := kept + [s[i]];
        }
        i := i + 1;
      }
      assert s[..i] == s;
      backends := kept;
      WithoutKeepsDistinct(s, id);
      if id !in Ids(s) {
        WithoutAbsentIsIdentity(s, id);
      }
    }
  }

  /** A backend found by ID is the first with that ID: no earlier position carries it. */
  lemma {:induction false} FindByIdIsFirst(s: seq<Backend>, id: string)
    ensures FindById(s, id).Some? ==> forall k :: 0 <= k < FindById(s, id).value ==> s[k].id != id
  {
    if s != [] && s[0].id != id {
      FindByIdIsFirst(s[1..], id);
    }
  }

  /** The scan finds an ID exactly when some backend of the snapshot carries it. */
  lemma {:induction false} FindByIdFindsRegistered(s: seq<Backend>, id: string)
    ensures FindById(s, id).Some? <==> id in Ids(s)
  {
    if s != [] {
      assert Ids(s) == [s[0].id] + Ids(s[1..]);
      FindByIdFindsRegistered(s[1..], id);
    }
  }

  /** Conversely, the first position carrying an ID is the one found. */
  lemma {:induction false} FirstMatch(s: seq<Backend>, i: nat)
    requires i < |s|
    requires forall k :: 0 <= k < i ==> s[k].id != s[i].id
    ensures FindById(s, s[i].id) == Some(i)
  {
    if i > 0 {
      FirstMatch(s[1..], i - 1);
    }
  }
}
