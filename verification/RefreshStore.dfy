/**
 The `refresh_tokens` table and the five statements the server runs on it.
 Each method is one SQL statement, so each is one atomic step of the rotation protocol.
 */
module RefreshStore {
  import opened Outcomes

  type TokenId = nat
  type FamilyId = nat
  type UserId = nat

  // A presented string: one the server generated, or anything else.
  datatype Raw = Minted(serial: nat) | Unknown(text: nat)

  // Hashing is taken to be injective, so a digest is as good as the string it came from.
  datatype Digest = Digest(of: Raw)

  function HashRefresh(raw: Raw): Digest {
    Digest(raw)
  }

  datatype Row = Row(user: UserId, family: FamilyId, hash: Digest, expires: int,
                     consumed: bool, replacedBy: Option<TokenId>)

  type Table = map<TokenId, Row>

  // What a lookup hands to the caller: the row without its digest and without its link.
  datatype Token = Token(id: TokenId, user: UserId, family: FamilyId, expires: int, consumed: bool)

  // The UNIQUE constraint on `token_hash`.
  ghost predicate UniqueHashes(t: Table) {
    forall a, b :: a in t && b in t && t[a].hash == t[b].hash ==> a == b
  }

  predicate OnlyRowWith(t: Table, h: Digest, id: TokenId) {
    id in t && t[id].hash == h && forall other :: other in t && t[other].hash == h ==> other == id
  }

  ghost predicate Found(t: Table, h: Digest, tok: Token) {
    && tok.id in t
    && t[tok.id].hash == h
    && tok == Token(tok.id, t[tok.id].user, t[tok.id].family, t[tok.id].expires, t[tok.id].consumed)
  }

  function Inserted(t: Table, id: TokenId, user: UserId, family: FamilyId, h: Digest, expires: int): Table {
    t[id := Row(user, family, h, expires, false, None)]
  }

  // The WHERE clause of the conditional update.
  predicate CanConsume(t: Table, id: TokenId) {
    id in t && !t[id].consumed
  }

  function Consumed(t: Table, id: TokenId, successor: TokenId): Table
    requires id in t
  {
    t[id := t[id].(consumed := true, replacedBy := Some(successor))]
  }

  function WithoutFamily(t: Table, family: FamilyId): Table {
    map id | id in t && t[id].family != family :: t[id]
  }

  function WithoutHash(t: Table, h: Digest): Table {
    map id | id in t && t[id].hash != h :: t[id]
  }

  // SELECT by a unique column.
  function Lookup(t: Table, h: Digest): (r: Option<Token>)
    ensures r.Some? ==> Found(t, h, r.value)
    ensures UniqueHashes(t) && r.None? ==> forall id :: id in t ==> t[id].hash != h
  {
    assert forall id :: UniqueHashes(t) && id in t && t[id].hash == h ==> OnlyRowWith(t, h, id);
    if exists id :: id in t && OnlyRowWith(t, h, id) then
      var id :| id in t && OnlyRowWith(t, h, id);
      Some(Token(id, t[id].user, t[id].family, t[id].expires, t[id].consumed))
    else None
  }

  lemma OnlyRowIsFound(t: Table, h: Digest, id: TokenId)
    requires id in t && t[id].hash == h && forall other :: other in t && t[other].hash == h ==> other == id
    ensures Lookup(t, h) == Some(Token(id, t[id].user, t[id].family, t[id].expires, t[id].consumed))
  {
    assert OnlyRowWith(t, h, id);
  }

  // Outside these ids the two tables hold the same rows.
  predicate KeepsAllBut(before: Table, after: Table, ids: set<TokenId>) {
    && (forall id :: id in before && id !in ids ==> id in after && after[id] == before[id])
    && (forall id :: id in after ==> id in before || id in ids)
  }

  lemma TableWithRow(before: Table, after: Table, id: TokenId, user: UserId, family: FamilyId, h: Digest, expires: int)
    requires KeepsAllBut(before, after, {id}) && id in after && after[id] == Row(user, family, h, expires, false, None)
    ensures after == Inserted(before, id, user, family, h, expires)
  {
  }

  datatype StoreError = NotFound | AlreadyConsumed

  class Store {
    var rows: Table

    constructor ()
      ensures rows == map[]
    {
      rows := map[];
    }

    // The identifier is drawn fresh by the caller's generator. The new row is the one a lookup of its
    // digest finds, unconsumed; no other row is touched.
    method InsertRefreshToken(id: TokenId, user: UserId, family: FamilyId, h: Digest, expires: int)
      modifies this
      ensures id in rows && rows[id].replacedBy == None
      ensures KeepsAllBut(old(rows), rows, {id})
      ensures (forall other :: other in rows && rows[other].hash == h ==> other == id) ==>
        Lookup(rows, h) == Some(Token(id, user, family, expires, false))
      ensures rows[id].hash == h && rows[id].expires == expires && rows[id].user == user && rows[id].family == family
      ensures CanConsume(rows, id)
    {
      rows := rows[id := Row(user, family, h, expires, false, None)];
      if forall other :: other in rows && rows[other].hash == h ==> other == id {
        OnlyRowIsFound(rows, h, id);
      }
    }

    method RefreshTokenByHash(h: Digest) returns (r: Result<Token, StoreError>)
      ensures r.Ok? ==> Lookup(rows, h) == Some(r.value)
      ensures r.Err? ==> r.error == NotFound && Lookup(rows, h) == None
    {
      match Lookup(rows, h)
      case Some(tok) => r := Ok(tok);
      case None => r := Err(NotFound);
    }

    method ConsumeRefreshToken(id: TokenId, successor: TokenId) returns (r: Result<(), StoreError>)
      modifies this
      ensures r.Ok? <==> CanConsume(old(rows), id)
      ensures r.Ok? ==> rows == Consumed(old(rows), id, successor)
      ensures r.Err? ==> r.error == AlreadyConsumed && rows == old(rows)
    {
      var affected := 0;
      if id in rows && !rows[id].consumed {
        rows := rows[id := rows[id].(consumed := true, replacedBy := Some(successor))];
        affected := 1;
      }
      if affected == 0 {
        return Err(AlreadyConsumed);
      }
      return Ok(());
    }

    // Nothing of the family can be looked up or consumed any more; every other row is untouched.
    method RevokeRefreshFamily(family: FamilyId)
      modifies this
      ensures forall id :: id in rows <==> id in old(rows) && old(rows)[id].family != family
      ensures forall id :: id in rows ==> rows[id] == old(rows)[id]
      ensures forall h :: Lookup(rows, h).Some? ==> Lookup(rows, h).value.family != family
      ensures forall id :: id in old(rows) && old(rows)[id].family == family ==> !CanConsume(rows, id)
    {
      rows := map id | id in rows && rows[id].family != family :: rows[id];
    }

    // The digest can no longer be looked up; every other row is untouched, and with no such row
    // nothing happens.
    method RevokeRefreshToken(h: Digest)
      modifies this
      ensures forall id :: id in rows <==> id in old(rows) && old(rows)[id].hash != h
      ensures forall id :: id in rows ==> rows[id] == old(rows)[id]
      ensures Lookup(rows, h) == None
      ensures (forall id :: id in old(rows) ==> old(rows)[id].hash != h) ==> rows == old(rows)
    {
      rows := map id | id in rows && rows[id].hash != h :: rows[id];
    }
  }
}
