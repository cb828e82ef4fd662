/** The clean-up of pairing rows that runs before the unique index on active pairings is added
    (internal/connectors/postgres/models.go:161-189). */
module PairingMigration {
  import opened ConnectorTypes
  import opened ConnectorStore

  type Pairings = map<nat, Pairing>

  /** A row with this ID is ranked before another: created later, or at the same time with the
      greater ID. */
  predicate Before(rows: Pairings, i: nat, j: nat)
    requires i in rows && j in rows
  {
    rows[i].createdAt > rows[j].createdAt || (rows[i].createdAt == rows[j].createdAt && i > j)
  }

  predicate Rivals(rows: Pairings, i: nat, j: nat)
    requires i in rows && j in rows
  {
    Active(rows[i]) && Active(rows[j]) && rows[i].connectorIdentity.keyID == rows[j].connectorIdentity.keyID
  }

  function Ahead(rows: Pairings, i: nat): set<nat>
    requires i in rows
  {
    set j | j in rows && Rivals(rows, j, i) && Before(rows, j, i)
  }

  /** Its row_number() in the partition of its key. */
  function Position(rows: Pairings, i: nat): nat
    requires i in rows
  {
    |Ahead(rows, i)| + 1
  }

  function ExpireUnusable(rows: Pairings): (after: Pairings)
    ensures after.Keys == rows.Keys
  {
    map i | i in rows ::
      if Active(rows[i]) && rows[i].connectorCredentialHash.None? then rows[i].(state := Expired) else rows[i]
  }

  function ExpireOlder(rows: Pairings): (after: Pairings)
    ensures after.Keys == rows.Keys
  {
    map i | i in rows :: if Active(rows[i]) && Position(rows, i) > 1 then rows[i].(state := Expired) else rows[i]
  }

  function Migrated(rows: Pairings): (after: Pairings)
    ensures after.Keys == rows.Keys
  {
    ExpireOlder(ExpireUnusable(rows))
  }

  class PairingTable {
    var rows: Pairings
    var indexed: bool     // the unique index on active pairings per key exists

    constructor (rows: Pairings)
      ensures this.rows == rows && !indexed
    {
      this.rows, indexed := rows, false;
    }

    /** Each UPDATE runs over the rows the one before it left; the index can then be created, which
        fails in a table where two active rows share a key. */
    method Migrate()
      modifies this
      ensures rows == Migrated(old(rows)) && indexed && OneActivePerKey(rows) && rows.Keys == old(rows.Keys)
      ensures forall i :: i in rows ==>
        rows[i] == if Survives(old(rows), i) then old(rows)[i] else old(rows)[i].(state := Expired)
    {
      hide ExpireUnusable, ExpireOlder, OneActivePerKey, Survives;
      rows := ExpireUnusable(rows);
      rows := ExpireOlder(rows);
      NewestSurvives(old(rows));
      indexed := true;
    }
  }

  lemma PositionIsOneIff(rows: Pairings, i: nat)
    requires i in rows
    ensures Position(rows, i) == 1 <==> forall j :: j in rows && Rivals(rows, j, i) ==> !Before(rows, j, i)
  {
    if j :| j in Ahead(rows, i) {
      assert Ahead(rows, i) == {j} + (Ahead(rows, i) - {j});
      assert j in rows && Rivals(rows, j, i) && Before(rows, j, i);
    } else {
      assert Ahead(rows, i) == {};
      assert forall j :: j in rows && Rivals(rows, j, i) && Before(rows, j, i) ==> j in Ahead(rows, i);
    }
  }

  /** A pairing that could still be completed: open, and with the connector's credential recorded. */
  predicate Usable(p: Pairing) { Active(p) && p.connectorCredentialHash.Some? }

  predicate Newest(rows: Pairings, i: nat)
    requires i in rows
  {
    forall j :: j in rows && Usable(rows[j]) && rows[j].connectorIdentity.keyID == rows[i].connectorIdentity.keyID ==> !Before(rows, j, i)
  }

  /** Closed pairings are left alone; of the open ones the newest usable one of each key stays. */
  predicate Survives(rows: Pairings, i: nat)
    requires i in rows
  {
    !Active(rows[i]) || (Usable(rows[i]) && Newest(rows, i))
  }

  lemma UsableStays(rows: Pairings, i: nat)
    requires i in rows
    ensures i in ExpireUnusable(rows) && (Active(ExpireUnusable(rows)[i]) <==> Usable(rows[i]))
    ensures ExpireUnusable(rows)[i] == rows[i] || ExpireUnusable(rows)[i] == rows[i].(state := Expired)
  {
  }

  lemma SurvivesIff(rows: Pairings, i: nat)
    requires i in rows
    ensures i in Migrated(rows) && (Active(Migrated(rows)[i]) <==> Usable(rows[i]) && Newest(rows, i))
    ensures Migrated(rows)[i] == rows[i] || (Active(rows[i]) && Migrated(rows)[i] == rows[i].(state := Expired))
  {
    var usable := ExpireUnusable(rows);
    forall j | j in rows ensures Active(usable[j]) <==> Usable(rows[j]) { UsableStays(rows, j); }
    PositionIsOneIff(usable, i);
    assert forall j :: j in rows ==> Before(usable, j, i) == Before(rows, j, i);
  }

  /** From any rows whatsoever, the clean-up keeps of each key exactly its newest open row that
      has a credential hash, expires every other open row, and changes nothing else; so no two
      open rows share a key and the index can be created. */
  lemma NewestSurvives(rows: Pairings)
    ensures Migrated(rows).Keys == rows.Keys && OneActivePerKey(Migrated(rows))
    ensures forall i :: i in rows ==>
      Migrated(rows)[i] == if Survives(rows, i) then rows[i] else rows[i].(state := Expired)
  {
    hide ExpireUnusable, ExpireOlder, Newest;
    forall i | i in rows ensures Migrated(rows)[i] == if Survives(rows, i) then rows[i] else rows[i].(state := Expired) {
      SurvivesIff(rows, i);
    }
    var after := Migrated(rows);
    forall i, j | i in after && j in after && i != j && Active(after[i]) && Active(after[j])
      ensures after[i].connectorIdentity.keyID != after[j].connectorIdentity.keyID
    {
      SurvivesIff(rows, i);
      SurvivesIff(rows, j);
      if rows[i].connectorIdentity.keyID == rows[j].connectorIdentity.keyID { NotBothNewest(rows, i, j); }
    }
  }

  lemma NotBothNewest(rows: Pairings, i: nat, j: nat)
    requires i in rows && j in rows && i != j && Usable(rows[i]) && Usable(rows[j])
    requires rows[i].connectorIdentity.keyID == rows[j].connectorIdentity.keyID
    ensures !Newest(rows, i) || !Newest(rows, j)
  {
    assert Before(rows, i, j) || Before(rows, j, i);
  }

  /** No key loses its last usable pairing. */
  lemma {:induction false} SomeNewest(rows: Pairings, among: set<nat>, i: nat) returns (n: nat)
    requires i in among && among <= rows.Keys
    ensures n in among && forall j :: j in among ==> !Before(rows, j, n)
    decreases among
  {
    if among == {i} {
      n := i;
    } else {
      var rest := among - {i};
      assert among == rest + {i};
      var k :| k in rest;
      n := SomeNewest(rows, rest, k);
      if Before(rows, i, n) { n := i; }
    }
  }

  lemma UsableKeysSurvive(rows: Pairings, i: nat)
    requires i in rows && Usable(rows[i])
    ensures exists n :: n in rows && Active(Migrated(rows)[n]) && rows[n].connectorIdentity.keyID == rows[i].connectorIdentity.keyID
  {
    var keyID := rows[i].connectorIdentity.keyID;
    var rivals := set j | j in rows && Usable(rows[j]) && rows[j].connectorIdentity.keyID == keyID;
    var n := SomeNewest(rows, rivals, i);
    NewestSurvives(rows);
    assert Newest(rows, n);
  }

  /** Running it again, as every start of the server does, changes nothing. */
  lemma MigrateIsIdempotent(rows: Pairings)
    ensures Migrated(Migrated(rows)) == Migrated(rows)
  {
    hide Migrated, Survives, OneActivePerKey;
    var once := Migrated(rows);
    NewestSurvives(once);
    forall i | i in once ensures Migrated(once)[i] == once[i] {
      SurvivorSurvives(rows, i);
    }
  }

  lemma SurvivorSurvives(rows: Pairings, i: nat)
    requires i in rows
    ensures i in Migrated(rows) && Survives(Migrated(rows), i)
  {
    hide ExpireUnusable, ExpireOlder;
    NewestSurvives(rows);
  }
}
