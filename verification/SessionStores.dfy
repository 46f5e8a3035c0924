/** Sessions and the two session stores: optimistic locking, copies in and out, tenant and
    attribute filters. */
module SessionStores {
  import opened Prelude
  import opened Messages

  datatype Value = Null | Scalar(text: string)

  type Attributes = map<string, Value>

  /** A session's data at one moment. */
  datatype Record = Record(
    id: string,
    tenant: Option<string>,
    version: int,
    messages: seq<Message>,
    attributes: Attributes,
    metadata: Attributes)

  type Contents = map<string, Record>

  datatype StoreError = Conflict(expected: int, found: int) | InvalidId

  datatype Saved = Done | Failed(error: StoreError)

  /** A list of messages, mutable in place and shared by whoever holds a reference to it. */
  class MessageList {
    var items: seq<Message>

    constructor (items: seq<Message>)
      ensures this.items == items
    {
      this.items := items;
    }
  }

  /** A dictionary, mutable in place and shared by whoever holds a reference to it. */
  class Dict {
    var entries: Attributes

    constructor (entries: Attributes)
      ensures this.entries == entries
    {
      this.entries := entries;
    }
  }

  class Session {
    var id: string
    var tenant: Option<string>
    var version: int
    var messages: MessageList
    var attributes: Dict
    var metadata: Dict

    /** The session and everything reachable from it. */
    ghost function Objects(): set<object>
      reads this
    {
      {this, messages, attributes, metadata}
    }

    function Data(): Record
      reads this, messages, attributes, metadata
    {
      Record(id, tenant, version, messages.items, attributes.entries, metadata.entries)
    }

    constructor (r: Record)
      ensures Data() == r && fresh(Objects() - {this}) && attributes != metadata
    {
      id, tenant, version := r.id, r.tenant, r.version;
      messages := new MessageList(r.messages);
      attributes := new Dict(r.attributes);
      metadata := new Dict(r.metadata);
    }

    /** `model_copy(deep=True)`: the copy shares nothing with the original. */
    method DeepCopy() returns (copy: Session)
      ensures fresh(copy.Objects()) && copy.Data() == Data() && copy.attributes != copy.metadata
    {
      copy := new Session(Data());
    }

    // What a caller may do to a session it holds, all of it in place.

    method AppendMessage(m: Message)
      modifies messages
      ensures Data() == old(Data()).(messages := old(messages.items) + [m])
    {
      messages.items := messages.items + [m];
    }

    method SetAttribute(key: string, value: Value)
      modifies attributes
      ensures attributes.entries == old(attributes.entries)[key := value]
    {
      attributes.entries := attributes.entries[key := value];
    }

    method SetMetadata(key: string, value: Value)
      modifies metadata
      ensures metadata.entries == old(metadata.entries)[key := value]
    {
      metadata.entries := metadata.entries[key := value];
    }

    /** Any mixture of the above. */
    method Overwrite(r: Record)
      modifies this, messages, attributes, metadata
      ensures unchanged(`messages) && unchanged(`attributes) && unchanged(`metadata)
      ensures attributes != metadata ==> Data() == r
    {
      id, tenant, version := r.id, r.tenant, r.version;
      messages.items := r.messages;
      metadata.entries := r.metadata;
      attributes.entries := r.attributes;
    }
  }

  // ---- meaning ------------------------------------------------------------------------------

  predicate Visible(r: Record, tenant: Option<string>) {
    tenant == None || r.tenant == tenant
  }

  function Loaded(c: Contents, id: string, tenant: Option<string>): Option<Record> {
    if id in c && Visible(c[id], tenant) then Some(c[id]) else None
  }

  predicate Saveable(c: Contents, r: Record) {
    r.id !in c || c[r.id].version == r.version
  }

  function Bumped(r: Record): Record {
    r.(version := r.version + 1)
  }

  function AfterSave(c: Contents, r: Record): Contents {
    if Saveable(c, r) then c[r.id := Bumped(r)] else c
  }

  function SaveResult(c: Contents, r: Record): Saved {
    if Saveable(c, r) then Done else Failed(Conflict(r.version, c[r.id].version))
  }

  /** A save reaches the one record of its id. */
  lemma SaveReaches(c: Contents, r: Record)
    ensures AfterSave(c, r) - {r.id} == c - {r.id} && r.id in AfterSave(c, r)
    ensures AfterSave(c, r)[r.id] == if Saveable(c, r) then Bumped(r) else c[r.id]
  {
  }

  /** Python's `attributes.get(k)`: a missing key reads as None. */
  function Get(a: Attributes, k: string): Value {
    if k in a then a[k] else Null
  }

  predicate Matches(r: Record, tenant: Option<string>, filter: Attributes) {
    Visible(r, tenant) && forall k :: k in filter ==> Get(r.attributes, k) == filter[k]
  }

  function Listed(c: Contents, tenant: Option<string>, filter: Attributes): set<Record> {
    set id | id in c && Matches(c[id], tenant, filter) :: c[id]
  }

  // ---- the memory store -----------------------------------------------------------------------

  class MemorySessionStore {
    var data: map<string, Session>

    /** All objects the store's sessions are made of; nobody outside holds one of them. */
    ghost var repr: set<object>

    ghost predicate Valid()
      reads this, repr
    {
      && this !in repr
      && forall id :: id in data ==> data[id] in repr && data[id].Objects() <= repr && data[id].id == id
    }

    ghost function Contents(): Contents
      reads this, repr
      requires Valid()
    {
      map id | id in data :: data[id].Data()
    }

    constructor ()
      ensures Valid() && Contents() == map[] && fresh(repr)
    {
      data, repr := map[], {};
    }

    /** The caller gets a deep copy. */
    method Load(id: string, tenant: Option<string>) returns (s: Session?)
      requires Valid()
      ensures Valid() && Contents() == old(Contents())
      ensures s == null <==> Loaded(Contents(), id, tenant) == None
      ensures s != null ==> fresh(s.Objects()) && s.Objects() !! repr && s.attributes != s.metadata
      ensures s != null ==> s.id == id && Loaded(Contents(), id, tenant) == Some(s.Data())
    {
      if id !in data {
        return null;
      }
      var kept := data[id];
      if tenant.Some? && kept.tenant != tenant {
        return null;
      }
      s := kept.DeepCopy();
    }

    /** The store keeps a deep copy of the session, whose version it has bumped on the caller's
        own object; a stale version changes nothing. */
    method Save(s: Session) returns (r: Saved)
      requires Valid() && s.Objects() !! repr && this !in s.Objects()
      modifies this, s`version
      ensures Valid() && s.Objects() == old(s.Objects()) && s.Objects() !! repr && fresh(repr - old(repr))
      ensures r == SaveResult(old(Contents()), old(s.Data()))
      ensures Contents() == AfterSave(old(Contents()), old(s.Data()))
      ensures s.Data() == if r == Done then Bumped(old(s.Data())) else old(s.Data())
    {
      hide Valid, Contents;
      var stale := NewerVersion(s);
      if stale.Some? {
        return Failed(Conflict(s.version, stale.value));
      }
      s.version := s.version + 1;
      var copy := s.DeepCopy();
      Put(copy);
      r := Done;
    }

    /** The stored version, when it is not the caller's. */
    method NewerVersion(s: Session) returns (found: Option<int>)
      requires Valid()
      ensures found == if Saveable(Contents(), s.Data()) then None else Some(Contents()[s.id].version)
    {
      assert s.id in data ==> Contents()[s.id] == data[s.id].Data();
      if s.id in data && data[s.id].version != s.version {
        return Some(data[s.id].version);
      }
      found := None;
    }

    /** `self._data[...] = ...`, for a session nobody else holds. */
    method Put(s: Session)
      requires Valid() && this !in s.Objects()
      modifies this
      ensures Valid() && repr == old(repr) + s.Objects()
      ensures Contents() == old(Contents())[s.id := s.Data()]
    {
      assert {s, s.messages, s.attributes, s.metadata} <= s.Objects();
      hide Session.Objects;
      data, repr := data[s.id := s], repr + s.Objects();
    }

    method Delete(id: string)
      requires Valid()
      modifies this
      ensures Valid() && repr == old(repr)
      ensures Contents() == old(Contents()) - {id}
    {
      hide Session.Data, Session.Objects;
      data := data - {id};
    }

    /** Copies of the matching sessions: the filters are applied one after the other. */
    method List(tenant: Option<string>, filter: Attributes) returns (found: set<Record>)
      requires Valid()
      ensures found == Listed(Contents(), tenant, filter)
    {
      var ids := data.Keys;
      if tenant.Some? {
        ids := set id | id in ids && data[id].tenant == tenant;
      }
      var left := filter.Keys;
      while left != {}
        invariant left <= filter.Keys
        invariant ids == set id | id in data && Visible(data[id].Data(), tenant)
                                  && forall k :: k in filter.Keys - left ==>
                                       Get(data[id].attributes.entries, k) == filter[k]
        decreases left
      {
        SomeMember(left);
        var k :| k in left;
        ids := set id | id in ids && Get(data[id].attributes.entries, k) == filter[k];
        left := left - {k};
      }
      found := set id | id in ids :: data[id].Data();
      FoundIsListed(ids, found, tenant, filter);
    }

    lemma FoundIsListed(ids: set<string>, found: set<Record>, tenant: Option<string>, filter: Attributes)
      requires Valid()
      requires ids == set id | id in data && Matches(data[id].Data(), tenant, filter)
      requires found == set id | id in ids :: data[id].Data()
      ensures found == Listed(Contents(), tenant, filter)
    {
      assert found == set id | id in ids :: Contents()[id];
    }
  }

  // ---- the file store -------------------------------------------------------------------------

  /** An id with "/" or ".." in it is refused before any file is touched. */
  predicate ValidId(id: string) {
    '/' !in id && forall i :: 0 <= i < |id| - 1 ==> !(id[i] == '.' && id[i + 1] == '.')
  }

  /** One file per id; a file's JSON text is taken as the record it encodes. */
  class FileSessionStore {
    var files: Contents

    ghost predicate Valid()
      reads this
    {
      forall id :: id in files ==> files[id].id == id
    }

    constructor ()
      ensures Valid() && files == map[]
    {
      files := map[];
    }

    method Load(id: string, tenant: Option<string>) returns (s: Session?, error: Option<StoreError>)
      requires Valid()
      ensures !ValidId(id) ==> s == null && error == Some(InvalidId)
      ensures ValidId(id) ==> error == None && (s == null <==> Loaded(files, id, tenant) == None)
      ensures s != null ==> fresh(s.Objects()) && Loaded(files, id, tenant) == Some(s.Data())
    {
      if !ValidId(id) {
        return null, Some(InvalidId);
      }
      if id !in files {
        return null, None;
      }
      var r := files[id];
      if tenant.Some? && r.tenant != tenant {
        return null, None;
      }
      s := new Session(r);
      error := None;
    }

    method Save(s: Session) returns (r: Saved)
      requires Valid()
      modifies this, s`version
      ensures Valid() && s.Objects() == old(s.Objects())
      ensures r == if ValidId(old(s.id)) then SaveResult(old(files), old(s.Data())) else Failed(InvalidId)
      ensures files == if ValidId(old(s.id)) then AfterSave(old(files), old(s.Data())) else old(files)
      ensures s.Data() == if r == Done then Bumped(old(s.Data())) else old(s.Data())
    {
      if !ValidId(s.id) {
        return Failed(InvalidId);
      }
      if s.id in files && files[s.id].version != s.version {
        return Failed(Conflict(s.version, files[s.id].version));
      }
      s.version := s.version + 1;
      files := files[s.id := s.Data()];
      r := Done;
    }

    method Delete(id: string) returns (error: Option<StoreError>)
      requires Valid()
      modifies this
      ensures Valid()
      ensures error == if ValidId(id) then None else Some(InvalidId)
      ensures files == if ValidId(id) then old(files) - {id} else old(files)
    {
      if !ValidId(id) {
        return Some(InvalidId);
      }
      files := files - {id};
      error := None;
    }

    /** File by file, in no particular order. */
    method List(tenant: Option<string>, filter: Attributes) returns (found: set<Record>)
      requires Valid()
      ensures found == Listed(files, tenant, filter)
    {
      found := {};
      var left := files.Keys;
      while left != {}
        invariant left <= files.Keys
        invariant found == set id | id in files && id !in left && Matches(files[id], tenant, filter) :: files[id]
        decreases left
      {
        SomeMember(left);
        var id :| id in left;
        left := left - {id};
        if Matches(files[id], tenant, filter) {
          found := found + {files[id]};
        }
      }
    }
  }

  // ---- the two stores observed ----------------------------------------------------------------

  datatype Op =
    | LoadOp(id: string, tenant: Option<string>)
    | SaveOp(record: Record)
    | ListOp(tenant: Option<string>, filter: Attributes)
    | DeleteOp(id: string)

  datatype Seen =
    | SawRecord(found: Option<Record>)
    | SawSaved(result: Saved, version: int)
    | SawList(records: set<Record>)
    | SawDeleted
    | SawError(error: StoreError)

  function MemoryStep(c: Contents, op: Op): (Contents, Seen) {
    match op
    case LoadOp(id, tenant) => (c, SawRecord(Loaded(c, id, tenant)))
    case SaveOp(r) =>
      (AfterSave(c, r), SawSaved(SaveResult(c, r), if Saveable(c, r) then r.version + 1 else r.version))
    case ListOp(tenant, filter) => (c, SawList(Listed(c, tenant, filter)))
    case DeleteOp(id) => (c - {id}, SawDeleted)
  }

  /** Listing reads whatever files there are; the other operations go through `_path`. */
  predicate Permitted(op: Op) {
    match op
    case LoadOp(id, _) => ValidId(id)
    case SaveOp(r) => ValidId(r.id)
    case ListOp(_, _) => true
    case DeleteOp(id) => ValidId(id)
  }

  function FileStep(c: Contents, op: Op): (Contents, Seen) {
    if Permitted(op) then MemoryStep(c, op)
    else
      match op
      case SaveOp(r) => (c, SawSaved(Failed(InvalidId), r.version))
      case _ => (c, SawError(InvalidId))
  }

  method PerformOnMemory(store: MemorySessionStore, op: Op) returns (now: Seen)
    requires store.Valid()
    modifies store
    ensures store.Valid() && fresh(store.repr - old(store.repr))
    ensures (store.Contents(), now) == MemoryStep(old(store.Contents()), op)
  {
    hide MemorySessionStore.Valid, MemorySessionStore.Contents, Loaded, AfterSave, Listed;
    match op {
      case LoadOp(id, tenant) =>
        var s := store.Load(id, tenant);
        now := SawRecord(if s == null then None else Some(s.Data()));
      case SaveOp(r) =>
        var s := new Session(r);
        var result := store.Save(s);
        now := SawSaved(result, s.version);
      case ListOp(tenant, filter) =>
        var found := store.List(tenant, filter);
        now := SawList(found);
      case DeleteOp(id) =>
        store.Delete(id);
        now := SawDeleted;
    }
  }

  method PerformOnFiles(store: FileSessionStore, op: Op) returns (now: Seen)
    requires store.Valid()
    modifies store
    ensures store.Valid()
    ensures (store.files, now) == FileStep(old(store.files), op)
  {
    hide FileSessionStore.Valid, AfterSave, Listed;
    match op {
      case LoadOp(id, tenant) =>
        var s, error := store.Load(id, tenant);
        now := if error.Some? then SawError(error.value)
               else SawRecord(if s == null then None else Some(s.Data()));
      case SaveOp(r) =>
        var s := new Session(r);
        var result := store.Save(s);
        now := SawSaved(result, s.version);
      case ListOp(tenant, filter) =>
        var found := store.List(tenant, filter);
        now := SawList(found);
      case DeleteOp(id) =>
        var error := store.Delete(id);
        now := if error.Some? then SawError(error.value) else SawDeleted;
    }
  }

  method RunMemory(store: MemorySessionStore, ops: seq<Op>) returns (seen: seq<Seen>)
    requires store.Valid()
    modifies store
    ensures store.Valid()
    ensures (store.Contents(), seen) == Observations(old(store.Contents()), ops, MemoryStep)
  {
    hide MemorySessionStore.Valid, MemorySessionStore.Contents, MemoryStep;
    seen := [];
    ghost var start := store.Contents();
    for k := 0 to |ops|
      invariant store.Valid() && fresh(store.repr - old(store.repr))
      invariant (store.Contents(), seen) == Observations(start, ops[..k], MemoryStep)
    {
      var now := PerformOnMemory(store, ops[k]);
      ObserveOne(start, ops, k, MemoryStep);
      seen := seen + [now];
    }
    assert ops[..|ops|] == ops;
  }

  method RunFiles(store: FileSessionStore, ops: seq<Op>) returns (seen: seq<Seen>)
    requires store.Valid()
    modifies store
    ensures store.Valid()
    ensures (store.files, seen) == Observations(old(store.files), ops, FileStep)
  {
    hide FileSessionStore.Valid, FileStep;
    seen := [];
    ghost var start := store.files;
    for k := 0 to |ops|
      invariant store.Valid()
      invariant (store.files, seen) == Observations(start, ops[..k], FileStep)
    {
      var now := PerformOnFiles(store, ops[k]);
      ObserveOne(start, ops, k, FileStep);
      seen := seen + [now];
    }
    assert ops[..|ops|] == ops;
  }

  /** The final contents and everything seen, when `step` is performed on each operation. */
  function Observations(c: Contents, ops: seq<Op>, step: (Contents, Op) -> (Contents, Seen)): (Contents, seq<Seen>) {
    if ops == [] then (c, [])
    else
      var (before, seen) := Observations(c, ops[..|ops| - 1], step);
      var (after, now) := step(before, ops[|ops| - 1]);
      (after, seen + [now])
  }

  lemma ObserveOne(c: Contents, ops: seq<Op>, k: nat, step: (Contents, Op) -> (Contents, Seen))
    requires k < |ops|
    ensures var (before, seen) := Observations(c, ops[..k], step);
            var (after, now) := step(before, ops[k]);
            Observations(c, ops[..k + 1], step) == (after, seen + [now])
  {
    assert ops[..k + 1][..k] == ops[..k];
  }

  lemma {:induction false} SeenLength(c: Contents, ops: seq<Op>, step: (Contents, Op) -> (Contents, Seen))
    ensures |Observations(c, ops, step).1| == |ops|
  {
    if ops != [] {
      SeenLength(c, ops[..|ops| - 1], step);
    }
  }

  /** From equal contents, the two stores show a caller the same results and conflicts over a
      whole sequence of operations exactly when none of them uses an id the file store
      refuses. */
  lemma {:induction false} StoresAgree(c: Contents, ops: seq<Op>)
    ensures Observations(c, ops, MemoryStep).1 == Observations(c, ops, FileStep).1 <==>
            forall k :: 0 <= k < |ops| ==> Permitted(ops[k])
    ensures (forall k :: 0 <= k < |ops| ==> Permitted(ops[k])) ==>
              Observations(c, ops, MemoryStep) == Observations(c, ops, FileStep)
  {
    if ops != [] {
      var n := |ops| - 1;
      var front := ops[..n];
      StoresAgree(c, front);
      SeenLength(c, front, MemoryStep);
      SeenLength(c, front, FileStep);
      var m := Observations(c, front, MemoryStep);
      var f := Observations(c, front, FileStep);
      var nowM := MemoryStep(m.0, ops[n]).1;
      var nowF := FileStep(f.0, ops[n]).1;
      assert Observations(c, ops, MemoryStep).1 == m.1 + [nowM];
      assert Observations(c, ops, FileStep).1 == f.1 + [nowF];
      LastsAgree(m.1, nowM, f.1, nowF);
      assert forall k :: 0 <= k < n ==> ops[k] == front[k];
    }
  }

  lemma LastsAgree(a: seq<Seen>, x: Seen, b: seq<Seen>, y: Seen)
    requires |a| == |b|
    ensures a + [x] == b + [y] <==> a == b && x == y
  {
    if a + [x] == b + [y] {
      assert (a + [x])[..|a|] == (b + [y])[..|b|];
      assert (a + [x])[|a|] == (b + [y])[|b|];
    }
  }

  // ---- nothing is shared -----------------------------------------------------------------------

  /** No change to anything but the store's own objects can reach its contents, whatever is changed,
      how often and by whom. */
  twostate lemma OnlyOwnObjectsMatter(store: MemorySessionStore)
    requires old(store.Valid())
    requires unchanged(store) && forall o :: o in old(store.repr) ==> unchanged(o)
    ensures store.Valid() && store.Contents() == old(store.Contents())
  {
  }

  datatype Mutation =
    | Appending(m: Message)
    | Truncating
    | SettingAttribute(key: string, value: Value)
    | SettingMetadata(key: string, value: Value)
    | Overwriting(r: Record)

  /** A caller at work on a session it holds. */
  method Mutate(s: Session, changes: seq<Mutation>)
    modifies s.Objects()
    ensures s.Objects() == old(s.Objects())
  {
    for k := 0 to |changes|
      invariant s.Objects() == old(s.Objects())
      invariant s.messages == old(s.messages) && s.attributes == old(s.attributes) && s.metadata == old(s.metadata)
    {
      match changes[k] {
        case Appending(m) => s.AppendMessage(m);
        case Truncating => s.messages.items := [];
        case SettingAttribute(key, value) => s.SetAttribute(key, value);
        case SettingMetadata(key, value) => s.SetMetadata(key, value);
        case Overwriting(r) => s.Overwrite(r);
      }
    }
  }

  /** Neither a loaded nor a saved session is a window into the memory store: after any sequence of
      changes to both, made in place, the store still holds what it held. */
  method ChangesStayOutside(store: MemorySessionStore, id: string, mine: Session,
                            ours: seq<Mutation>, theirs: seq<Mutation>)
    requires store.Valid() && mine.Objects() !! store.repr && store !in mine.Objects()
    modifies store, mine.Objects()
    ensures store.Valid() && store.Contents() == AfterSave(old(store.Contents()), old(mine.Data()))
  {
    hide MemorySessionStore.Valid, MemorySessionStore.Contents;
    var r := store.Save(mine);
    var loaded := store.Load(id, None);
    Mutate(mine, ours);
    if loaded != null {
      Mutate(loaded, theirs);
    }
  }

  /** The same for the file store. */
  method ChangesStayOutsideFiles(store: FileSessionStore, id: string, mine: Session,
                                 ours: seq<Mutation>, theirs: seq<Mutation>)
    requires store.Valid() && ValidId(mine.id) && store !in mine.Objects()
    modifies store, mine.Objects()
    ensures store.Valid() && store.files == AfterSave(old(store.files), old(mine.Data()))
  {
    var r := store.Save(mine);
    var loaded, error := store.Load(id, None);
    Mutate(mine, ours);
    if loaded != null {
      Mutate(loaded, theirs);
    }
  }
}
