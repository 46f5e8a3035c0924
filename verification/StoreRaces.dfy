/** Many callers loading, editing and saving sessions of one store, in any interleaving, when
    versions come only from the store and nothing is deleted. */
module StoreRaces {
  import opened Prelude
  import opened Messages
  import opened SessionStores

  type Caller = nat

  /** What a caller holds: its object's data, the record that object was when the caller last read
      or wrote the store (None for a session not yet created), and how many commits of the id that
      state of the store had. */
  datatype Held = Held(record: Record, origin: Option<Record>, basis: nat, creating: bool)

  datatype Commit = Commit(record: Record, origin: Option<Record>, basis: nat, author: Caller)

  datatype World = World(
    store: Contents,
    held: map<Caller, Held>,
    log: map<string, seq<Commit>>,
    won: map<Caller, string>,
    lost: map<Caller, string>)

  const EMPTY := World(map[], map[], map[], map[], map[])

  /** `create_session` is two steps, with other callers' steps in between: the check that the
      id is unused, then the save. */
  datatype Move =
    | LoadMove(who: Caller, id: string)
    | EditMove(who: Caller, edited: Record)
    | SaveMove(who: Caller)
    | CheckMove(who: Caller, id: string, tenant: Option<string>, attributes: Attributes, metadata: Attributes)
    | CreateMove(who: Caller)

  function Log(w: World, id: string): seq<Commit> {
    if id in w.log then w.log[id] else []
  }

  predicate Fresh(w: World, who: Caller) {
    who !in w.held && who !in w.won && who !in w.lost
  }

  predicate CanMove(w: World, m: Move) {
    match m
    case LoadMove(who, id) => id in w.store && (who in w.held ==> !w.held[who].creating)
    case EditMove(who, r) =>
      who in w.held && !w.held[who].creating
      && r.id == w.held[who].record.id && r.version == w.held[who].record.version
    case SaveMove(who) => who in w.held && !w.held[who].creating
    case CheckMove(who, _, _, _, _) => Fresh(w, who)
    case CreateMove(who) => who in w.held && w.held[who].creating
  }

  /** A save as the stores perform it; a success is logged and bumps the caller's object. */
  function Save(w: World, who: Caller): World
    requires who in w.held
  {
    var h := w.held[who];
    var id := h.record.id;
    if Saveable(w.store, h.record) then
      var log := Log(w, id) + [Commit(Bumped(h.record), h.origin, h.basis, who)];
      w.(store := AfterSave(w.store, h.record),
         log := w.log[id := log],
         held := w.held[who := Held(Bumped(h.record), Some(Bumped(h.record)), |log|, false)])
    else w
  }

  function Move1(w: World, m: Move): World
    requires CanMove(w, m)
  {
    match m
    case LoadMove(who, id) => w.(held := w.held[who := Held(w.store[id], Some(w.store[id]), |Log(w, id)|, false)])
    case EditMove(who, r) => w.(held := w.held[who := w.held[who].(record := r)])
    case SaveMove(who) => Save(w, who)
    case CheckMove(who, id, tenant, attributes, metadata) =>
      if id in w.store then w.(lost := w.lost[who := id])
      else w.(held := w.held[who := Held(Record(id, tenant, 0, [], attributes, metadata), None, 0, true)])
    case CreateMove(who) =>
      var id := w.held[who].record.id;
      if Saveable(w.store, w.held[who].record) then Save(w, who).(won := w.won[who := id])
      else w.(held := w.held - {who}, lost := w.lost[who := id])
  }

  ghost predicate IsHistory(worlds: seq<World>, moves: seq<Move>) {
    && |worlds| == |moves| + 1
    && worlds[0] == EMPTY
    && forall i :: 0 <= i < |moves| ==> CanMove(worlds[i], moves[i]) && worlds[i + 1] == Move1(worlds[i], moves[i])
  }

  // ---- the invariant -----------------------------------------------------------------------

  /** The record the n-th commit left in the store; none before the first. */
  function RecordAt(log: seq<Commit>, n: nat): Option<Record>
    requires n <= |log|
  {
    if n == 0 then None else Some(log[n - 1].record)
  }

  /** Commits are numbered 1, 2, 3, ..., and each was derived from the very record the one just
      before it had left. */
  predicate Linked(log: seq<Commit>, n: nat)
    requires n < |log|
  {
    && log[n].record.version == n + 1
    && log[n].basis == n
    && log[n].origin == RecordAt(log, n)
  }

  predicate Chained(log: seq<Commit>) {
    forall n :: 0 <= n < |log| ==> Linked(log, n)
  }

  predicate StoreFits(w: World, id: string) {
    && (id in w.store <==> Log(w, id) != [])
    && (id in w.store ==> w.store[id] == Log(w, id)[|Log(w, id)| - 1].record && w.store[id].id == id)
    && Chained(Log(w, id))
    && (id in w.store ==>
          var winner := Log(w, id)[0].author;
          winner in w.won && w.won[winner] == id)
  }

  predicate HeldFits(w: World, h: Held) {
    var log := Log(w, h.record.id);
    && h.basis <= |log|
    && h.record.version == h.basis
    && h.origin == RecordAt(log, h.basis)
    && (h.creating <==> h.basis == 0)
  }

  predicate CallerFits(w: World, who: Caller) {
    && (who in w.held ==> HeldFits(w, w.held[who]) && (w.held[who].creating ==> who !in w.won))
    && (who in w.won ==> Log(w, w.won[who]) != [] && Log(w, w.won[who])[0].author == who)
    && (who in w.lost ==> w.lost[who] in w.store)
  }

  ghost predicate Orderly(w: World) {
    (forall id :: StoreFits(w, id)) && (forall who :: CallerFits(w, who))
  }

  // ---- every move keeps it -------------------------------------------------------------------

  lemma ChainGrows(log: seq<Commit>, c: Commit)
    requires Chained(log)
    requires c.record.version == |log| + 1 && c.basis == |log|
    requires c.origin == RecordAt(log, |log|)
    ensures Chained(log + [c])
  {
    var longer := log + [c];
    forall n | 0 <= n < |longer| ensures Linked(longer, n) {
      assert RecordAt(longer, n) == RecordAt(log, n);
      if n < |log| {
        assert Linked(log, n);
      }
    }
  }

  predicate Commits(w: World, m: Move) {
    CanMove(w, m) && (m.SaveMove? || m.CreateMove?) && Saveable(w.store, w.held[m.who].record)
  }

  function NewCommit(w: World, who: Caller): Commit
    requires who in w.held
  {
    Commit(Bumped(w.held[who].record), w.held[who].origin, w.held[who].basis, who)
  }

  /** What a successful save does, in terms of the log. */
  lemma CommitEffect(w: World, m: Move)
    requires Orderly(w) && Commits(w, m)
    ensures var h := w.held[m.who]; var x := h.record.id; var v := Move1(w, m);
            && v.log == w.log[x := Log(w, x) + [NewCommit(w, m.who)]]
            && v.store == w.store[x := Bumped(h.record)]
            && v.held == w.held[m.who := Held(Bumped(h.record), Some(Bumped(h.record)), |Log(w, x)| + 1, false)]
            && v.lost == w.lost
            && v.won == (if h.creating then w.won[m.who := x] else w.won)
            && h.basis == |Log(w, x)|
            && (h.creating <==> Log(w, x) == [])
  {
    var log := Log(w, w.held[m.who].record.id);
    assert CallerFits(w, m.who) && StoreFits(w, w.held[m.who].record.id);
    if log != [] {
      assert Linked(log, |log| - 1);
    }
  }

  lemma CommitKeepsStore(w: World, m: Move, id: string)
    requires Orderly(w) && Commits(w, m)
    ensures StoreFits(Move1(w, m), id)
  {
    CommitEffect(w, m);
    assert StoreFits(w, id) && CallerFits(w, m.who);
    var x := w.held[m.who].record.id;
    if id == x {
      ChainGrows(Log(w, x), NewCommit(w, m.who));
    } else if id in w.store {
      assert CallerFits(w, Log(w, id)[0].author);
    }
  }

  lemma LogGrows(w: World, m: Move, id: string)
    requires Orderly(w) && Commits(w, m)
    ensures Log(w, id) <= Log(Move1(w, m), id)
  {
    CommitEffect(w, m);
  }

  lemma HeldStillFits(w: World, v: World, h: Held)
    requires HeldFits(w, h) && Log(w, h.record.id) <= Log(v, h.record.id)
    ensures HeldFits(v, h)
  {
  }

  lemma CommitKeepsCaller(w: World, m: Move, who: Caller)
    requires Orderly(w) && Commits(w, m)
    ensures CallerFits(Move1(w, m), who)
  {
    var v := Move1(w, m);
    var x := w.held[m.who].record.id;
    CommitEffect(w, m);
    assert CallerFits(w, who) && StoreFits(w, x);
    if who in w.won {
      LogGrows(w, m, w.won[who]);
    }
    if who == m.who {
      assert Log(v, x)[|Log(w, x)|] == NewCommit(w, who);
      assert HeldFits(v, v.held[who]);
    } else if who in w.held {
      LogGrows(w, m, w.held[who].record.id);
      HeldStillFits(w, v, w.held[who]);
    }
  }

  lemma OtherKeepsStore(w: World, m: Move, id: string)
    requires Orderly(w) && CanMove(w, m) && !Commits(w, m)
    ensures StoreFits(Move1(w, m), id)
  {
    assert StoreFits(w, id);
  }

  lemma OtherKeepsCaller(w: World, m: Move, who: Caller)
    requires Orderly(w) && CanMove(w, m) && !Commits(w, m)
    ensures CallerFits(Move1(w, m), who)
  {
    assert CallerFits(w, who);
    if m.LoadMove? && m.who == who {
      var log := Log(w, m.id);
      assert StoreFits(w, m.id);
      assert Linked(log, |log| - 1);
    }
  }

  lemma {:induction false} OrderlyHolds(worlds: seq<World>, moves: seq<Move>, k: nat)
    requires IsHistory(worlds, moves) && k < |worlds|
    ensures Orderly(worlds[k])
  {
    if k > 0 {
      OrderlyHolds(worlds, moves, k - 1);
      var w, m := worlds[k - 1], moves[k - 1];
      forall id ensures StoreFits(worlds[k], id) {
        if Commits(w, m) { CommitKeepsStore(w, m, id); } else { OtherKeepsStore(w, m, id); }
      }
      forall who ensures CallerFits(worlds[k], who) {
        if Commits(w, m) { CommitKeepsCaller(w, m, who); } else { OtherKeepsCaller(w, m, who); }
      }
    }
  }

  // ---- what every history guarantees -----------------------------------------------------------

  /** Whatever the callers write, the n-th commit of an id carries version n and was derived from
      the record that the commit just before it left. */
  lemma CommitsAreConsecutive(worlds: seq<World>, moves: seq<Move>, k: nat, id: string, n: nat)
    requires IsHistory(worlds, moves) && k < |worlds| && n < |Log(worlds[k], id)|
    ensures var log := Log(worlds[k], id);
            log[n].record.version == n + 1 && log[n].basis == n && log[n].origin == RecordAt(log, n)
  {
    OrderlyHolds(worlds, moves, k);
    assert StoreFits(worlds[k], id);
    assert Linked(Log(worlds[k], id), n);
  }

  // ---- histories in which callers only append messages -------------------------------------------

  predicate Appends(w: World, m: Move) {
    CanMove(w, m) && m.EditMove? ==> w.held[m.who].record.messages <= m.edited.messages
  }

  ghost predicate AppendOnly(worlds: seq<World>, moves: seq<Move>) {
    |worlds| == |moves| + 1 && forall i :: 0 <= i < |moves| ==> Appends(worlds[i], moves[i])
  }

  function MessagesOf(r: Option<Record>): seq<Message> {
    if r.None? then [] else r.value.messages
  }

  predicate CommitGrows(log: seq<Commit>, n: nat)
    requires n < |log|
  {
    MessagesOf(log[n].origin) <= log[n].record.messages
  }

  predicate LogGrowing(log: seq<Commit>) {
    forall n :: 0 <= n < |log| ==> CommitGrows(log, n)
  }

  predicate HeldGrowing(h: Held) {
    MessagesOf(h.origin) <= h.record.messages
  }

  predicate CallerGrowing(w: World, who: Caller) {
    who in w.held ==> HeldGrowing(w.held[who])
  }

  lemma GrowsOn(w: World, m: Move, id: string, who: Caller)
    requires CanMove(w, m) && Appends(w, m)
    requires LogGrowing(Log(w, id)) && CallerGrowing(w, who) && CallerGrowing(w, m.who)
    ensures LogGrowing(Log(Move1(w, m), id)) && CallerGrowing(Move1(w, m), who)
  {
    var before, after := Log(w, id), Log(Move1(w, m), id);
    if after != before {
      assert after == before + [NewCommit(w, m.who)];
      forall n | 0 <= n < |after| ensures CommitGrows(after, n) {
        if n < |before| {
          assert CommitGrows(before, n);
        }
      }
    }
  }

  lemma {:induction false} GrowingHolds(worlds: seq<World>, moves: seq<Move>, k: nat, id: string, who: Caller)
    requires IsHistory(worlds, moves) && AppendOnly(worlds, moves) && k < |worlds|
    ensures LogGrowing(Log(worlds[k], id)) && CallerGrowing(worlds[k], who)
  {
    if k > 0 {
      GrowingHolds(worlds, moves, k - 1, id, who);
      GrowingHolds(worlds, moves, k - 1, id, moves[k - 1].who);
      assert Appends(worlds[k - 1], moves[k - 1]);
      GrowsOn(worlds[k - 1], moves[k - 1], id, who);
    }
  }

  /** What the n-th commit added to the messages it was derived from. */
  function AddedBy(log: seq<Commit>, n: nat): seq<Message>
    requires n < |log| && CommitGrows(log, n)
  {
    log[n].record.messages[|MessagesOf(log[n].origin)|..]
  }

  function Added(log: seq<Commit>): seq<seq<Message>>
    requires LogGrowing(log)
  {
    seq(|log|, n requires 0 <= n < |log| => assert CommitGrows(log, n); AddedBy(log, n))
  }

  lemma FrontOfLog(log: seq<Commit>)
    requires Chained(log) && LogGrowing(log) && log != []
    ensures Chained(log[..|log| - 1]) && LogGrowing(log[..|log| - 1])
    ensures Added(log) == Added(log[..|log| - 1]) + [AddedBy(log, |log| - 1)]
  {
    var front := log[..|log| - 1];
    forall n | 0 <= n < |front| ensures Linked(front, n) && CommitGrows(front, n) {
      assert Linked(log, n) && CommitGrows(log, n) && RecordAt(front, n) == RecordAt(log, n);
    }
  }

  lemma {:induction false} ChainAccumulates(log: seq<Commit>)
    requires Chained(log) && LogGrowing(log)
    ensures MessagesOf(RecordAt(log, |log|)) == Flatten(Added(log))
  {
    if log != [] {
      var n := |log| - 1;
      FrontOfLog(log);
      ChainAccumulates(log[..n]);
      assert Linked(log, n) && CommitGrows(log, n);
      FlattenSnoc(Added(log[..n]), AddedBy(log, n));
      assert RecordAt(log[..n], n) == RecordAt(log, n);
    }
  }

  /** When callers only append, no update is lost: the stored history is every committed
      addition, in commit order. */
  lemma NoLostUpdate(worlds: seq<World>, moves: seq<Move>, k: nat, id: string)
    requires IsHistory(worlds, moves) && AppendOnly(worlds, moves) && k < |worlds| && id in worlds[k].store
    ensures var log := Log(worlds[k], id);
            && LogGrowing(log)
            && worlds[k].store[id].messages == Flatten(Added(log))
            && worlds[k].store[id].version == |log|
  {
    OrderlyHolds(worlds, moves, k);
    GrowingHolds(worlds, moves, k, id, 0);
    assert StoreFits(worlds[k], id);
    ChainAccumulates(Log(worlds[k], id));
    assert Linked(Log(worlds[k], id), |Log(worlds[k], id)| - 1);
  }

  /** However many calls of create_session race for an unused id, as soon as one of them has
      returned or failed exactly one has succeeded. */
  lemma OneCreatorWins(worlds: seq<World>, moves: seq<Move>, k: nat, id: string, call: Caller)
    requires IsHistory(worlds, moves) && k < |worlds|
    requires (call in worlds[k].won && worlds[k].won[call] == id)
             || (call in worlds[k].lost && worlds[k].lost[call] == id)
    ensures exists winner :: winner in worlds[k].won && worlds[k].won[winner] == id
                             && forall who :: who in worlds[k].won && worlds[k].won[who] == id ==> who == winner
  {
    OrderlyHolds(worlds, moves, k);
    assert StoreFits(worlds[k], id);
    var w := worlds[k];
    assert CallerFits(w, call);
    var winner := Log(w, id)[0].author;
    forall who | who in w.won && w.won[who] == id ensures who == winner {
      assert CallerFits(w, who);
    }
  }
}
