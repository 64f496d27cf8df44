/** A user's default resume: one flag per user in the table, and a cached copy that has to agree with it. */
module DefaultResume {
  import opened Prelude

  datatype Resume = Resume(userId: int, isDefault: bool)

  /** The resumes by id, and for each user the id of the cached default. */
  datatype State = State(table: map<int, Resume>, cache: map<int, int>)

  datatype Event =
    | Upload(userId: int, id: int, checked: bool, committed: bool)
    | List(userId: int, cacheRead: bool, fetched: bool, cached: bool)
    | Expire(userId: int)
    | Switch(userId: int, newId: int, cacheRead: bool, statementsSucceed: bool, deleted: bool)

  // ---------------------------------------------------------------- queries

  predicate IsDefault(table: map<int, Resume>, userId: int, id: int) {
    id in table && table[id].userId == userId && table[id].isDefault
  }

  predicate HasDefault(table: map<int, Resume>, userId: int) {
    exists id :: id in table && IsDefault(table, userId, id)
  }

  /** The row the query for a user's default finds first. */
  ghost function DefaultOf(table: map<int, Resume>, userId: int): Option<int> {
    if HasDefault(table, userId) then
      var id :| id in table && IsDefault(table, userId, id);
      Some(id)
    else None
  }

  /** The unique index: no user has two defaults. */
  predicate AtMostOne(table: map<int, Resume>) {
    forall a, b ::
      a in table && b in table && IsDefault(table, table[a].userId, a) && IsDefault(table, table[a].userId, b)
      ==> a == b
  }

  function Flag(table: map<int, Resume>, id: int, isDefault: bool): map<int, Resume> {
    if id in table then table[id := table[id].(isDefault := isDefault)] else table
  }

  // ---------------------------------------------------------------- operations

  /** The transaction of a switch; it rolls back when the unique index is violated. Updating no row is not an error. */
  function SwitchTx(table: map<int, Resume>, prior: int, newId: int, ok: bool): (map<int, Resume>, bool) {
    var switched := Flag(Flag(table, prior, false), newId, true);
    if ok && AtMostOne(switched) then (switched, true) else (table, false)
  }

  /** The default a service call works with: the cached one, or else the one in the table. */
  ghost function KnownDefault(w: State, userId: int): Option<int> {
    if userId in w.cache then Some(w.cache[userId]) else DefaultOf(w.table, userId)
  }

  ghost function Step(w: State, e: Event): State {
    match e
    case Upload(userId, id, checked, committed) =>
      if !checked || !committed || id in w.table then w
      else w.(table := w.table[id := Resume(userId, !HasDefault(w.table, userId))])
    case List(userId, cacheRead, fetched, cached) =>
      if !cacheRead || userId in w.cache || !fetched then w
      else
        var found := DefaultOf(w.table, userId);
        if found.Some? && cached then w.(cache := w.cache[userId := found.value]) else w
    case Expire(userId) => w.(cache := w.cache - {userId})
    case Switch(userId, newId, cacheRead, statementsSucceed, deleted) =>
      var prior := KnownDefault(w, userId);
      if !cacheRead || prior.None? then w
      else
        var (table, ok) := SwitchTx(w.table, prior.value, newId, statementsSucceed);
        if ok then State(table, if deleted then w.cache - {userId} else w.cache) else w
  }

  ghost function After(w: State, events: seq<Event>): State {
    if events == [] then w else Step(After(w, events[..|events| - 1]), events[|events| - 1])
  }

  // ---------------------------------------------------------------- the invariant

  /** Every user with resumes has exactly one default, and a cached default is that one. */
  ghost predicate Good(w: State) {
    && AtMostOne(w.table)
    && (forall id :: id in w.table ==> HasDefault(w.table, w.table[id].userId))
    && (forall userId :: userId in w.cache ==> IsDefault(w.table, userId, w.cache[userId]))
  }

  predicate Own(table: map<int, Resume>, userId: int, id: int) {
    id in table && table[id].userId == userId
  }

  lemma KnownIsDefault(w: State, userId: int)
    requires Good(w)
    ensures var known := KnownDefault(w, userId);
      && (known.Some? <==> exists id :: id in w.table && w.table[id].userId == userId)
      && (known.Some? ==> IsDefault(w.table, userId, known.value))
      && known == DefaultOf(w.table, userId)
  {
  }

  /** What the table holds after a switch away from a user's default. */
  lemma Switched(table: map<int, Resume>, prior: int, newId: int, userId: int)
    requires AtMostOne(table) && IsDefault(table, userId, prior)
    ensures var t := Flag(Flag(table, prior, false), newId, true);
      && t.Keys == table.Keys
      && (forall id :: id in t ==> t[id].userId == table[id].userId)
      && (forall id :: id in t ==> (t[id].isDefault <==> id == newId || (id != prior && table[id].isDefault)))
  {
  }

  /** A transaction commits for the user's own resume, and for a foreign one only if it is already a default. */
  lemma CommitsWhen(table: map<int, Resume>, prior: int, newId: int, userId: int)
    requires AtMostOne(table) && IsDefault(table, userId, prior)
    requires forall id :: id in table ==> HasDefault(table, table[id].userId)
    ensures AtMostOne(Flag(Flag(table, prior, false), newId, true)) <==>
      newId !in table || table[newId].userId == userId || table[newId].isDefault
  {
    var t := Flag(Flag(table, prior, false), newId, true);
    Switched(table, prior, newId, userId);
    hide Flag;
    if newId in table && table[newId].userId != userId && !table[newId].isDefault {
      var other :| other in table && IsDefault(table, table[newId].userId, other);
      assert IsDefault(t, table[newId].userId, other) && IsDefault(t, table[newId].userId, newId);
    } else {
      forall a, b, u | IsDefault(t, u, a) && IsDefault(t, u, b) ensures a == b {
        assert a == newId || IsDefault(table, u, a);
        assert b == newId || IsDefault(table, u, b);
        if newId in table && table[newId].userId != userId {
          assert IsDefault(table, table[newId].userId, newId);
        }
        if u == userId {
          assert a != newId ==> a == prior;
          assert b != newId ==> b == prior;
        }
      }
    }
  }

  /** A switch that reaches its transaction and whose statements and index check pass. */
  ghost predicate Commits(w: State, e: Event) {
    && e.Switch? && e.cacheRead && e.statementsSucceed && HasDefault(w.table, e.userId)
    && (e.newId !in w.table || w.table[e.newId].userId == e.userId || w.table[e.newId].isDefault)
  }

  lemma SwitchIs(w: State, e: Event)
    requires Good(w) && e.Switch?
    ensures var prior := DefaultOf(w.table, e.userId);
      Step(w, e) ==
        if Commits(w, e) then State(Flag(Flag(w.table, prior.value, false), e.newId, true),
                                    if e.deleted then w.cache - {e.userId} else w.cache)
        else w
  {
    KnownIsDefault(w, e.userId);
    hide KnownDefault;
    if HasDefault(w.table, e.userId) {
      CommitsWhen(w.table, DefaultOf(w.table, e.userId).value, e.newId, e.userId);
    }
    hide Flag, AtMostOne;
  }

  /**
   A switch keeps the invariant exactly when it is rolled back, or names the user's own resume and does not leave a
   stale copy in the cache. (The service checks neither that the resume exists nor whose it is.)
   */
  lemma SwitchKeepsGood(w: State, e: Event)
    requires Good(w) && e.Switch?
    ensures Good(Step(w, e)) <==>
      !Commits(w, e)
      || (Own(w.table, e.userId, e.newId)
          && (e.deleted || e.userId !in w.cache || w.cache[e.userId] == e.newId))
  {
    SwitchIs(w, e);
    if Commits(w, e) {
      var u := e.userId;
      var prior := DefaultOf(w.table, u).value;
      var w1 := Step(w, e);
      CommitsWhen(w.table, prior, e.newId, u);
      Switched(w.table, prior, e.newId, u);
      hide Flag, Step;
      if Own(w.table, u, e.newId) {
        CommittedOwn(w, e, prior, w1);
      } else {
        assert !HasDefault(w1.table, u) by {
          forall id | id in w1.table ensures !IsDefault(w1.table, u, id) {
            assert id in w.table && w.table[id].userId == u && w.table[id].isDefault ==> IsDefault(w.table, u, id);
          }
        }
        assert prior in w1.table && w1.table[prior].userId == u;
      }
    }
  }

  /** The table after a committed switch to an own resume. */
  ghost predicate SwitchedTo(before: map<int, Resume>, after: map<int, Resume>, prior: int, newId: int) {
    && after.Keys == before.Keys
    && (forall id :: id in after ==> after[id].userId == before[id].userId)
    && (forall id :: id in after ==> (after[id].isDefault <==> id == newId || (id != prior && before[id].isDefault)))
  }

  lemma CommittedOwn(w: State, e: Event, prior: int, w1: State)
    requires Good(w) && e.Switch? && Own(w.table, e.userId, e.newId) && IsDefault(w.table, e.userId, prior)
    requires SwitchedTo(w.table, w1.table, prior, e.newId) && AtMostOne(w1.table)
    requires w1.cache == if e.deleted then w.cache - {e.userId} else w.cache
    ensures Good(w1) <==> e.deleted || e.userId !in w.cache || w.cache[e.userId] == e.newId
  {
  }

  lemma UploadKeepsGood(w: State, e: Event)
    requires Good(w) && e.Upload?
    ensures Good(Step(w, e))
    ensures e.checked && e.committed && e.id !in w.table ==>
      && Own(Step(w, e).table, e.userId, e.id) && Step(w, e).table.Keys == w.table.Keys + {e.id}
      && (forall id :: id in w.table ==> Step(w, e).table[id] == w.table[id])
      && (IsDefault(Step(w, e).table, e.userId, e.id) <==>
           forall id :: id in w.table ==> w.table[id].userId != e.userId)
    ensures !(e.checked && e.committed && e.id !in w.table) ==> Step(w, e) == w
    ensures Step(w, e).cache == w.cache
  {
    var t := Step(w, e).table;
    forall u | HasDefault(w.table, u) ensures HasDefault(t, u) {
      var d :| d in w.table && IsDefault(w.table, u, d);
      assert IsDefault(t, u, d);
    }
    forall id | id in t ensures HasDefault(t, t[id].userId) {
      if id !in w.table {
        assert HasDefault(w.table, e.userId) || IsDefault(t, e.userId, id);
      }
    }
    forall a, b, u | IsDefault(t, u, a) && IsDefault(t, u, b) ensures a == b {
      assert a in w.table ==> IsDefault(w.table, u, a);
      assert b in w.table ==> IsDefault(w.table, u, b);
    }
  }

  /** Switches name the user's own existing resumes and delete the cached copy. */
  predicate Proper(w: State, e: Event) {
    e.Switch? ==> Own(w.table, e.userId, e.newId) && e.deleted
  }

  lemma StepKeepsGood(w: State, e: Event)
    requires Good(w) && Proper(w, e)
    ensures Good(Step(w, e))
  {
    match e
    case Upload(_, _, _, _) => UploadKeepsGood(w, e);
    case Switch(_, _, _, _, _) => SwitchKeepsGood(w, e);
    case List(userId, _, _, _) => KnownIsDefault(w, userId);
    case Expire(_) =>
  }

  /** A listing that can cache leaves in the cache what it shows; after an expiry the table's default is shown. */
  lemma ListThenExpire(w: State, userId: int)
    ensures var listed := Step(w, List(userId, true, true, true));
      && listed.table == w.table
      && listed.cache.Keys == w.cache.Keys + (if KnownDefault(w, userId).Some? then {userId} else {})
      && (KnownDefault(w, userId).Some? ==> listed.cache[userId] == KnownDefault(w, userId).value)
      && (forall u :: u in w.cache ==> listed.cache[u] == w.cache[u])
    ensures var expired := Step(w, Expire(userId));
      && expired.table == w.table && KnownDefault(expired, userId) == DefaultOf(w.table, userId)
      && forall u :: u != userId ==> KnownDefault(expired, u) == KnownDefault(w, u)
  {
  }

  ghost predicate ProperRun(w: State, events: seq<Event>) {
    events == [] || (var n := |events| - 1; ProperRun(w, events[..n]) && Proper(After(w, events[..n]), events[n]))
  }

  /**
   Over any run of uploads, listings, expiries and proper switches, failed ones included, the invariant holds, and a
   listing shows the default of the table, cached or not.
   */
  lemma {:induction false} GoodHolds(w: State, events: seq<Event>)
    requires Good(w) && ProperRun(w, events)
    ensures Good(After(w, events))
    ensures forall userId :: KnownDefault(After(w, events), userId) == DefaultOf(After(w, events).table, userId)
  {
    GoodHoldsAfter(w, events);
    hide Good, After;
    forall userId ensures KnownDefault(After(w, events), userId) == DefaultOf(After(w, events).table, userId) {
      KnownIsDefault(After(w, events), userId);
    }
  }

  lemma {:induction false} GoodHoldsAfter(w: State, events: seq<Event>)
    requires Good(w) && ProperRun(w, events)
    ensures Good(After(w, events))
  {
    hide Good, Proper, Step;
    if events != [] {
      GoodHoldsAfter(w, events[..|events| - 1]);
      StepKeepsGood(After(w, events[..|events| - 1]), events[|events| - 1]);
    }
  }

  /** A switch commits to a resume that is not the user's own, or leaves a stale copy in the cache. */
  ghost predicate Spoils(w: State, e: Event) {
    && Commits(w, e)
    && !(Own(w.table, e.userId, e.newId) && (e.deleted || e.userId !in w.cache || w.cache[e.userId] == e.newId))
  }

  lemma StepSpoils(w: State, e: Event)
    requires Good(w)
    ensures Good(Step(w, e)) <==> !Spoils(w, e)
  {
    if e.Switch? {
      SwitchKeepsGood(w, e);
    } else {
      StepKeepsGood(w, e);
    }
    hide Good, Step;
  }

  ghost predicate NeverSpoiled(w: State, events: seq<Event>) {
    events == [] || (var n := |events| - 1; NeverSpoiled(w, events[..n]) && !Spoils(After(w, events[..n]), events[n]))
  }

  ghost predicate GoodThroughout(w: State, events: seq<Event>) {
    Good(After(w, events)) && (events != [] ==> GoodThroughout(w, events[..|events| - 1]))
  }

  /** Over any run the invariant holds throughout exactly when no switch spoils it. */
  lemma {:induction false} GoodRun(w: State, events: seq<Event>)
    requires Good(w)
    ensures GoodThroughout(w, events) <==> NeverSpoiled(w, events)
  {
    hide Good, Spoils, Step;
    if events != [] {
      var n := |events| - 1;
      GoodRun(w, events[..n]);
      if Good(After(w, events[..n])) {
        StepSpoils(After(w, events[..n]), events[n]);
      }
    }
  }

  /** A stale cached default blocks switching: every switch to another own resume is refused by the index. */
  lemma StaleCacheBlocks(w: State, e: Event, current: int)
    requires AtMostOne(w.table) && e.Switch? && e.userId in w.cache
    requires IsDefault(w.table, e.userId, current) && w.cache[e.userId] != current
    requires Own(w.table, e.userId, e.newId) && e.newId != current
    ensures Step(w, e) == w
  {
    var t := Flag(Flag(w.table, w.cache[e.userId], false), e.newId, true);
    assert IsDefault(t, e.userId, e.newId) && IsDefault(t, e.userId, current);
  }

  // ---------------------------------------------------------------- the services

  class ResumeService {
    var table: map<int, Resume>
    var cache: map<int, int>

    constructor ()
      ensures View() == State(map[], map[]) && Good(View())
    {
      table, cache := map[], map[];
    }

    ghost function View(): State
      reads this
    {
      State(table, cache)
    }

    method GetDefaultResume(userId: int) returns (found: Option<int>)
      requires AtMostOne(table)
      ensures found == DefaultOf(table, userId)
    {
      if id :| id in table && IsDefault(table, userId, id) {
        found := Some(id);
      } else {
        found := None;
      }
    }

    /** The resume is stored unless a call fails or its id is known, as default if and only if the user has none yet. */
    method StoreUpload(userId: int, id: int, checked: bool, committed: bool)
      modifies this`table
      ensures Good(old(View())) ==> Good(View())
      ensures checked && committed && id !in old(table) ==>
        && id in table && table[id].userId == userId && table.Keys == old(table).Keys + {id}
        && (table[id].isDefault <==>
             forall k :: k in old(table) && old(table)[k].userId == userId ==> !old(table)[k].isDefault)
      ensures !(checked && committed && id !in old(table)) ==> table == old(table)
      ensures forall other :: other in old(table) ==> other in table && table[other] == old(table)[other]
      ensures View() == Step(old(View()), Upload(userId, id, checked, committed))
    {
      ghost var before := View();
      assert Good(before) ==> Good(Step(before, Upload(userId, id, checked, committed))) by {
        if Good(before) {
          UploadKeepsGood(before, Upload(userId, id, checked, committed));
        }
      }
      hide Good;
      if !checked {
        return;
      }
      var hasDefault := HasDefault(table, userId);
      if committed && id !in table {
        table := table[id := Resume(userId, !hasDefault)];
      }
    }

    /** Lists with the user's default, from the cache when it is there. */
    method ListResume(userId: int, cacheRead: bool, fetched: bool, cached: bool)
      returns (shown: Result<Option<int>, string>)
      requires AtMostOne(table)
      modifies this`cache
      ensures userId in old(cache) || !cacheRead || !fetched || !cached ==> cache == old(cache)
      ensures shown.Ok? && cached ==>
        forall u :: u in cache ==>
          (u in old(cache) && cache[u] == old(cache)[u]) || (u == userId && shown.value == Some(cache[u]))
      ensures shown.Ok? && cached && shown.value.Some? ==> userId in cache && cache[userId] == shown.value.value
      ensures View() == Step(old(View()), List(userId, cacheRead, fetched, cached))
      ensures shown.Ok? <==> cacheRead && fetched
      ensures shown.Ok? ==> shown.value == KnownDefault(old(View()), userId)
    {
      if !cacheRead {
        return Err("cache");
      }
      if !fetched {
        return Err("fetch");
      }
      if userId in cache {
        return Ok(Some(cache[userId]));
      }
      var found := GetDefaultResume(userId);
      if found.Some? && cached {
        cache := cache[userId := found.value];
      }
      return Ok(found);
    }

    method SwitchDefaultResume(
      userId: int, newId: int, cacheRead: bool, statementsSucceed: bool, deleted: bool)
      returns (ok: bool)
      requires AtMostOne(table)
      modifies this
      ensures View() == Step(old(View()), Switch(userId, newId, cacheRead, statementsSucceed, deleted))
      ensures ok ==> cacheRead && KnownDefault(old(View()), userId).Some?
      ensures cacheRead && KnownDefault(old(View()), userId).Some? ==>
        ok == SwitchTx(old(table), KnownDefault(old(View()), userId).value, newId, statementsSucceed).1
    {
      if !cacheRead {
        return false;
      }
      var prior: Option<int>;
      if userId in cache {
        prior := Some(cache[userId]);
      } else {
        prior := GetDefaultResume(userId);
        if prior.None? {
          return false;
        }
      }
      var before := table;
      table := Flag(table, prior.value, false);
      table := Flag(table, newId, true);
      if !statementsSucceed || !AtMostOne(table) {
        table := before;
        return false;
      }
      if deleted {
        cache := cache - {userId};
      }
      return true;
    }
  }

  // ---------------------------------------------------------------- the time of the last update

  /** The running maximum over the listed resumes and the default. */
  method LastUpdatedAt(ofDefault: Option<int>, listed: seq<int>) returns (r: Option<int>)
    ensures r.None? <==> ofDefault.None? && listed == []
    ensures r.Some? ==> (ofDefault == r || r.value in listed)
    ensures r.Some? && ofDefault.Some? ==> ofDefault.value <= r.value
    ensures r.Some? ==> forall t :: t in listed ==> t <= r.value
  {
    r := ofDefault;
    if |listed| > 0 {
      var mostRecent := listed[0];
      for i := 0 to |listed|
        invariant mostRecent in listed
        invariant forall j :: 0 <= j < i ==> listed[j] <= mostRecent
      {
        if listed[i] > mostRecent {
          mostRecent := listed[i];
        }
      }
      if ofDefault.Some? {
        if mostRecent > ofDefault.value {
          r := Some(mostRecent);
        }
      } else {
        r := Some(mostRecent);
      }
    }
  }
}
