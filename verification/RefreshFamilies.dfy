/** Refresh-token rows and their rotation (server/src/hyproxy/idp/oidc/refresh.py).
    A token is represented by the id of its row. */
module RefreshFamilies {
  import opened Prelude
  import opened Rows

  datatype Refresh = Refresh(
    session: Id, family: Id, parent: Option<Id>, client: string, user: Id, jkt: nat, scope: string,
    expires: Instant, used: bool, revoked: bool)

  type Table = map<Id, Refresh>

  // ------------------------------------------------------------ row functions

  function FamilyRevoked(rows: Table, family: Id): Table {
    map k | k in rows :: if rows[k].family == family then rows[k].(revoked := true) else rows[k]
  }

  function SessionRevoked(rows: Table, session: Id): Table {
    map k | k in rows :: if rows[k].session == session then rows[k].(revoked := true) else rows[k]
  }

  function Child(parent: Id, row: Refresh): Refresh {
    row.(parent := Some(parent), used := false, revoked := false)
  }

  function Rotated(rows: Table, id: Id, child: Id): Table
    requires id in rows
  {
    rows[id := rows[id].(used := true)][child := Child(id, rows[id])]
  }

  /** The `refresh_tokens` table. */
  class RefreshTable {
    var rows: Table

    constructor ()
      ensures rows == map[]
    {
      rows := map[];
    }

    method IssueFamily(id: Id, family: Id, session: Id, owner: Session, client: string, scope: string, jkt: nat)
      modifies this
      ensures rows == old(rows)[id := Refresh(session, family, None, client, owner.user, jkt, scope,
          owner.absoluteExpiry, false, false)]
    {
      rows := rows[id := Refresh(session, family, None, client, owner.user, jkt, scope, owner.absoluteExpiry, false,
          false)];
    }

    method Rotate(id: Id, child: Id)
      requires id in rows && child !in rows
      modifies this
      ensures rows == Rotated(old(rows), id, child)
    {
      var row := rows[id];
      rows := rows[id := row.(used := true)];
      rows := rows[child := Refresh(row.session, row.family, Some(id), row.client, row.user, row.jkt, row.scope,
                                    row.expires, false, false)];
    }

    method RevokeFamily(family: Id)
      modifies this
      ensures rows == FamilyRevoked(old(rows), family)
    {
      rows := map k | k in rows ::
        if rows[k].family == family && !rows[k].revoked then rows[k].(revoked := true) else rows[k];
    }

    method RevokeForSession(session: Id)
      modifies this
      ensures rows == SessionRevoked(old(rows), session)
    {
      rows := map k | k in rows ::
        if rows[k].session == session && !rows[k].revoked then rows[k].(revoked := true) else rows[k];
    }
  }

  // ------------------------------------------------------------------- chains

  /** The rows of a family in order of rotation: one list, linked by parents from the
      row that has none, every row but the last used. */
  ghost predicate IsChain(rows: Table, family: Id, chain: seq<Id>) {
    && chain != []
    && (forall id :: id in chain <==> id in rows && rows[id].family == family)
    && (forall i, j :: 0 <= i < j < |chain| ==> chain[i] != chain[j])
    && rows[chain[0]].parent == None
    && (forall i :: 0 < i < |chain| ==> rows[chain[i]].parent == Some(chain[i - 1]))
    && (forall i :: 0 <= i < |chain| - 1 ==> rows[chain[i]].used)
  }

  /** What a family shares. */
  predicate SameGrant(a: Refresh, b: Refresh) {
    a.session == b.session && a.client == b.client && a.user == b.user && a.jkt == b.jkt && a.scope == b.scope
    && a.expires == b.expires
  }

  ghost predicate HasChain(rows: Table, family: Id) {
    exists chain :: IsChain(rows, family, chain)
  }

  ghost predicate Chained(rows: Table) {
    forall id :: id in rows ==> HasChain(rows, rows[id].family)
  }

  ghost predicate Uniform(rows: Table) {
    forall a, b :: a in rows && b in rows && rows[a].family == rows[b].family ==> SameGrant(rows[a], rows[b])
  }

  ghost predicate WellFormed(rows: Table) { Chained(rows) && Uniform(rows) }

  /** Rows possibly revoked, and whole families possibly gone. */
  ghost predicate Weaker(s: Table, t: Table) {
    && (forall id :: id in t ==>
          id in s && t[id].(revoked := s[id].revoked) == s[id] && (s[id].revoked ==> t[id].revoked))
    && (forall a, b :: a in t && b in s && s[a].family == s[b].family ==> b in t)
  }

  /** A chain looks only at its own rows' links and use. */
  lemma ChainKept(s: Table, t: Table, family: Id, chain: seq<Id>)
    requires IsChain(s, family, chain)
    requires forall id :: id in chain ==>
               id in t && t[id].family == family && t[id].parent == s[id].parent && (s[id].used ==> t[id].used)
    requires forall id :: id in t && t[id].family == family ==> id in s && s[id].family == family
    ensures IsChain(t, family, chain)
  {
    forall i | 0 <= i < |chain|
      ensures chain[i] in t && t[chain[i]].parent == s[chain[i]].parent
      ensures s[chain[i]].used ==> t[chain[i]].used
    {
      assert chain[i] in chain;
    }
  }

  lemma WeakerKeepsChain(s: Table, t: Table, id: Id)
    requires Weaker(s, t) && id in t && HasChain(s, s[id].family)
    ensures HasChain(t, t[id].family)
  {
    var chain :| IsChain(s, s[id].family, chain);
    ChainKept(s, t, s[id].family, chain);
  }

  lemma WeakerKeepsForm(s: Table, t: Table)
    requires WellFormed(s) && Weaker(s, t)
    ensures WellFormed(t)
  {
    forall id | id in t ensures HasChain(t, t[id].family) { WeakerKeepsChain(s, t, id); }
    WeakerKeepsUniform(s, t);
  }

  lemma WeakerKeepsUniform(s: Table, t: Table)
    requires Uniform(s) && Weaker(s, t)
    ensures Uniform(t)
  {
    forall a, b | a in t && b in t && t[a].family == t[b].family ensures SameGrant(t[a], t[b]) {
      assert SameGrant(s[a], s[b]);
    }
  }

  lemma IssueKeepsForm(s: Table, id: Id, row: Refresh)
    requires WellFormed(s) && id !in s && row.parent == None
    requires forall k :: k in s ==> s[k].family != row.family
    ensures WellFormed(s[id := row])
  {
    var t := s[id := row];
    forall k | k in t ensures HasChain(t, t[k].family) {
      if k == id {
        assert IsChain(t, row.family, [id]);
      } else {
        var chain :| IsChain(s, s[k].family, chain);
        ChainKept(s, t, s[k].family, chain);
      }
    }
  }

  /** The unused row of a family is the end of its chain. */
  lemma RotationExtends(s: Table, id: Id, child: Id, chain: seq<Id>)
    requires id in s && child !in s && !s[id].used && IsChain(s, s[id].family, chain)
    ensures IsChain(Rotated(s, id, child), s[id].family, chain + [child])
  {
    var t := Rotated(s, id, child);
    var next := chain + [child];
    var j :| 0 <= j < |chain| && chain[j] == id;
    assert j == |chain| - 1;
    assert forall i :: 0 <= i < |chain| ==> next[i] == chain[i] && next[i] in chain;
  }

  lemma RotationKeepsUniform(s: Table, id: Id, child: Id)
    requires Uniform(s) && id in s && child !in s
    ensures Uniform(Rotated(s, id, child))
  {
    var t := Rotated(s, id, child);
    forall a, b | a in t && b in t && t[a].family == t[b].family ensures SameGrant(t[a], t[b]) {
      var a', b' := if a == child then id else a, if b == child then id else b;
      assert SameGrant(s[a'], s[b']);
    }
  }

  lemma RotationKeepsForm(s: Table, id: Id, child: Id)
    requires WellFormed(s) && id in s && child !in s && !s[id].used
    ensures WellFormed(Rotated(s, id, child))
  {
    var t := Rotated(s, id, child);
    var family := s[id].family;
    assert HasChain(t, family) by {
      var own :| IsChain(s, family, own);
      RotationExtends(s, id, child, own);
    }
    forall k | k in t ensures HasChain(t, t[k].family) {
      if t[k].family != family {
        assert HasChain(s, s[k].family);
        var chain :| IsChain(s, s[k].family, chain);
        ChainKept(s, t, s[k].family, chain);
      }
    }
    RotationKeepsUniform(s, id, child);
  }

  /** So a family never has two unused tokens. */
  lemma AtMostOneUnused(rows: Table, a: Id, b: Id)
    requires a in rows && b in rows && HasChain(rows, rows[a].family) && rows[a].family == rows[b].family
    requires !rows[a].used && !rows[b].used
    ensures a == b
  {
    var chain :| IsChain(rows, rows[a].family, chain);
    assert a in chain && b in chain;
    var i :| 0 <= i < |chain| && chain[i] == a;
    var j :| 0 <= j < |chain| && chain[j] == b;
  }
}
