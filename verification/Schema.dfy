/** The CHECK and UNIQUE clauses of the schema hold in every reachable state. */
module Schema {
  import opened Keys
  import opened Rows
  import opened Sagas
  import opened Invariant
  import opened Database
  import opened Runs
  import opened Histories

  predicate IsRow(db: Db, p: Uuid, i: nat) {
    p in db.sagas && i < |db.sagas[p].effects|
  }

  // Primary key of effects, and the two UNIQUE clauses: two rows sharing any of these keys are
  // the same row.
  predicate SameKeys(p: Uuid, e: Effect, q: Uuid, f: Effect) {
    || e.effectId == f.effectId
    || e.downstreamKey == f.downstreamKey
    || (p == q && e.kind == f.kind && e.ordinal == f.ordinal)
  }

  // Where the rows of a kind begin.
  function KindStart(s: Saga, kind: Kind): nat
    requires Begun(s)
  {
    match kind
    case CreateOrganization => 0
    case PutEntitlement => 1
    case RevokeEntitlement => Split(s)
  }

  lemma RowPlace(p: Uuid, s: Saga, i: nat)
    requires Layout(p, s) && i < |s.effects|
    ensures s.effects[i].downstreamKey == DownstreamKey(p, s.effects[i].kind, s.effects[i].ordinal)
    ensures i == s.effects[i].ordinal + KindStart(s, s.effects[i].kind)
    ensures s.effects[i].kind.CreateOrganization? ==> s.effects[i].ordinal == 0
  {
    assert Placed(p, s.effects, Split(s), i);
  }

  lemma KeysWithinSaga(p: Uuid, s: Saga, i: nat, j: nat)
    requires Layout(p, s) && i < |s.effects| && j < |s.effects|
    requires SameKeys(p, s.effects[i], p, s.effects[j])
    ensures i == j
  {
    RowPlace(p, s, i);
    RowPlace(p, s, j);
    if s.effects[i].downstreamKey == s.effects[j].downstreamKey {
      DownstreamKeyInjective(p, s.effects[i].kind, s.effects[i].ordinal, p, s.effects[j].kind, s.effects[j].ordinal);
    }
  }

  lemma KeysAcrossSagas(p: Uuid, s: Saga, i: nat, q: Uuid, t: Saga, j: nat)
    requires Layout(p, s) && Layout(q, t) && p != q && RowIds(s.effects) !! RowIds(t.effects)
    requires i < |s.effects| && j < |t.effects|
    ensures !SameKeys(p, s.effects[i], q, t.effects[j])
  {
    assert s.effects[i].effectId in RowIds(s.effects) && t.effects[j].effectId in RowIds(t.effects);
    RowPlace(p, s, i);
    RowPlace(q, t, j);
    if s.effects[i].downstreamKey == t.effects[j].downstreamKey {
      DownstreamKeyInjective(p, s.effects[i].kind, s.effects[i].ordinal, q, t.effects[j].kind, t.effects[j].ordinal);
    }
  }

  // No reachable state breaks a UNIQUE clause.
  lemma KeysUnique(db: Db, p: Uuid, i: nat, q: Uuid, j: nat)
    requires Reachable(db) && IsRow(db, p, i) && IsRow(db, q, j)
    requires SameKeys(p, db.sagas[p].effects[i], q, db.sagas[q].effects[j])
    ensures p == q && i == j
  {
    ReachableDbInv(db);
    InvAt(db, p);
    InvAt(db, q);
    if p == q {
      KeysWithinSaga(p, db.sagas[p], i, j);
    } else {
      KeysAcrossSagas(p, db.sagas[p], i, q, db.sagas[q], j);
    }
  }

  // No reachable state breaks a CHECK clause, and a revoke's source is a row of its own saga.
  lemma ChecksHold(db: Db, p: Uuid, i: nat)
    requires Reachable(db) && IsRow(db, p, i)
    ensures SagaRowCheck(db.sagas[p].row) && EffectCheck(db.sagas[p].effects[i])
    ensures db.sagas[p].effects[i].sourceEffectId.Some? ==>
              HasRow(db.sagas[p].effects, db.sagas[p].effects[i].sourceEffectId.value)
  {
    ReachableSaga(db, p);
    var s := db.sagas[p];
    assert EffectOk(s.effects[i]);
    assert Placed(p, s.effects, Split(s), i);
  }

  // The rows are held in the order the saga's queries sort by: kind, then ordinal.
  lemma RowsAreSorted(db: Db, p: Uuid, i: nat, j: nat)
    requires Reachable(db) && IsRow(db, p, i) && IsRow(db, p, j) && i < j
    ensures var e, f := db.sagas[p].effects[i], db.sagas[p].effects[j];
            Rank(e.kind) < Rank(f.kind) || (e.kind == f.kind && e.ordinal < f.ordinal)
  {
    ReachableSaga(db, p);
    RowPlace(p, db.sagas[p], i);
    RowPlace(p, db.sagas[p], j);
    KindsByPlace(p, db.sagas[p], i);
    KindsByPlace(p, db.sagas[p], j);
  }

  // Exactly one start row was committed for each saga.
  lemma OneStartRow(db: Db, p: Uuid) returns (key: MutationKey)
    requires Reachable(db) && p in db.sagas
    ensures key in db.mutations && StartRowOf(db.mutations[key], p)
    ensures forall other | other in db.mutations && StartRowOf(db.mutations[other], p) :: other == key
  {
    ReachableDbInv(db);
    assert HasStartRow(db, p);
    key :| key in db.mutations && StartRowOf(db.mutations[key], p);
  }
}
