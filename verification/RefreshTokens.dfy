/**
 Refresh tokens: rows that hold a salted hash of an opaque token, and are deleted
 when the token is consumed. Hashing is ideal: a hash matches exactly its token.
 */
module RefreshTokens {
  import opened Prelude

  datatype Hash = Hash(token: string, salt: nat)

  predicate Matches(raw: string, h: Hash) {
    h.token == raw
  }

  datatype TokenRow = TokenRow(id: nat, userId: string, tokenHash: Hash, expiresAt: int)

  datatype Consumed = Accepted(userId: string) | Rejected | RecordNotFound

  /** The first row, in table order, whose owner is set and whose hash matches. */
  function FirstMatch(rows: seq<TokenRow>, raw: string): Option<TokenRow> {
    if rows == [] then None
    else if rows[0].userId != "" && Matches(raw, rows[0].tokenHash) then Some(rows[0])
    else FirstMatch(rows[1..], raw)
  }

  predicate HasRow(rows: seq<TokenRow>, id: nat) {
    exists i :: 0 <= i < |rows| && rows[i].id == id
  }

  function WithoutRow(rows: seq<TokenRow>, id: nat): seq<TokenRow> {
    if rows == [] then []
    else (if rows[0].id == id then [] else [rows[0]]) + WithoutRow(rows[1..], id)
  }

  function WithoutUser(rows: seq<TokenRow>, userId: string): seq<TokenRow> {
    if rows == [] then []
    else (if rows[0].userId == userId then [] else [rows[0]]) + WithoutUser(rows[1..], userId)
  }

  /** How many tokens a user holds. */
  function Held(rows: seq<TokenRow>, userId: string): nat {
    if rows == [] then 0 else (if rows[0].userId == userId then 1 else 0) + Held(rows[1..], userId)
  }

  /** Deleting a missing row is an error of the database. */
  function Deleted(rows: seq<TokenRow>, id: nat): Option<seq<TokenRow>> {
    if HasRow(rows, id) then Some(WithoutRow(rows, id)) else None
  }

  /** Consuming a token with nobody else at work. */
  function ConsumeIn(rows: seq<TokenRow>, raw: string, now: int): (Consumed, seq<TokenRow>) {
    if raw == "" then (Rejected, rows)
    else
      match FirstMatch(rows, raw)
      case None => (Rejected, rows)
      case Some(row) => (if row.expiresAt < now then Rejected else Accepted(row.userId), WithoutRow(rows, row.id))
  }

  ghost predicate DistinctRows(rows: seq<TokenRow>) {
    forall i, j :: 0 <= i < j < |rows| ==> rows[i].id != rows[j].id
  }

  lemma {:induction false} FirstMatchFacts(rows: seq<TokenRow>, raw: string)
    ensures FirstMatch(rows, raw).Some? ==>
      var row := FirstMatch(rows, raw).value;
      row in rows && row.userId != "" && Matches(raw, row.tokenHash)
    ensures FirstMatch(rows, raw).None? ==> forall r :: r in rows ==> r.userId == "" || !Matches(raw, r.tokenHash)
  {
    if rows != [] {
      FirstMatchFacts(rows[1..], raw);
      assert forall r :: r in rows <==> r == rows[0] || r in rows[1..];
    }
  }

  lemma {:induction false} WithoutRowMembers(rows: seq<TokenRow>, id: nat)
    ensures forall r :: r in WithoutRow(rows, id) <==> r in rows && r.id != id
    ensures !HasRow(rows, id) ==> WithoutRow(rows, id) == rows
  {
    if rows != [] {
      WithoutRowMembers(rows[1..], id);
      assert forall r :: r in rows <==> r == rows[0] || r in rows[1..];
      if !HasRow(rows, id) {
        assert rows[0].id != id;
        assert forall i :: 0 <= i < |rows[1..]| ==> rows[1..][i] == rows[i + 1];
        assert !HasRow(rows[1..], id);
      }
    }
  }

  lemma {:induction false} WithoutUserMembers(rows: seq<TokenRow>, userId: string)
    ensures forall r :: r in WithoutUser(rows, userId) <==> r in rows && r.userId != userId
  {
    if rows != [] {
      WithoutUserMembers(rows[1..], userId);
      assert forall r :: r in rows <==> r == rows[0] || r in rows[1..];
    }
  }

  lemma {:induction false} HeldConcat(a: seq<TokenRow>, b: seq<TokenRow>, userId: string)
    ensures Held(a + b, userId) == Held(a, userId) + Held(b, userId)
  {
    if a == [] {
      assert a + b == b;
    } else {
      HeldConcat(a[1..], b, userId);
      assert (a + b)[1..] == a[1..] + b;
    }
  }

  lemma {:induction false} HeldWithoutRow(rows: seq<TokenRow>, row: TokenRow, userId: string)
    requires DistinctRows(rows) && row in rows
    ensures Held(WithoutRow(rows, row.id), userId) == Held(rows, userId) - if row.userId == userId then 1 else 0
  {
    var rest := rows[1..];
    assert forall i :: 0 <= i < |rest| ==> rest[i] == rows[i + 1];
    if rows[0].id == row.id {
      var k :| 0 <= k < |rows| && rows[k] == row;
      assert k == 0;
      assert !HasRow(rest, row.id);
      WithoutRowMembers(rest, row.id);
      assert WithoutRow(rows, row.id) == rest;
    } else {
      var k :| 0 <= k < |rows| && rows[k] == row;
      assert rest[k - 1] == row;
      HeldWithoutRow(rest, row, userId);
      assert ([rows[0]] + WithoutRow(rest, row.id))[1..] == WithoutRow(rest, row.id);
    }
  }

  lemma {:induction false} HeldWithoutUser(rows: seq<TokenRow>, userId: string, other: string)
    ensures Held(WithoutUser(rows, userId), other) == if other == userId then 0 else Held(rows, other)
  {
    if rows != [] {
      HeldWithoutUser(rows[1..], userId, other);
      var rest := WithoutUser(rows[1..], userId);
      assert [] + rest == rest && ([rows[0]] + rest)[1..] == rest;
    }
  }

  /** Consumption, alone: accepted exactly when the token's row exists and is not
      expired; then exactly that row is gone and exactly its owner holds one less. */
  lemma ConsumeExactly(rows: seq<TokenRow>, raw: string, now: int, userId: string)
    requires DistinctRows(rows) && raw != ""
    requires forall r, s :: r in rows && s in rows && r.tokenHash.token == s.tokenHash.token ==> r == s
    ensures var (result, after) := ConsumeIn(rows, raw, now);
      && (result == Accepted(userId) <==>
            exists r :: r in rows && r.tokenHash.token == raw && r.userId == userId && userId != ""
              && r.expiresAt >= now)
      && (result.Accepted? ==>
            && Held(after, result.userId) == Held(rows, result.userId) - 1
            && ConsumeIn(after, raw, now) == (Rejected, after))
  {
    FirstMatchFacts(rows, raw);
    var m := FirstMatch(rows, raw);
    if m.Some? {
      HeldWithoutRow(rows, m.value, m.value.userId);
      WithoutRowMembers(rows, m.value.id);
      FirstMatchFacts(WithoutRow(rows, m.value.id), raw);
    }
  }

  // ------------------------------------------------------------ the service

  class RefreshTokensService {
    var rows: seq<TokenRow>
    var nextId: nat

    constructor ()
      ensures Valid() && rows == []
    {
      rows, nextId := [], 0;
    }

    ghost predicate Valid()
      reads this
    {
      DistinctRows(rows) && forall r :: r in rows ==> r.id < nextId
    }

    /** Stores the hash of a new random token and hands the token out. */
    method Issue(userId: string, expiresAt: int, random: string, salt: nat) returns (raw: string)
      requires Valid()
      modifies this
      ensures Valid()
      ensures raw == random
      ensures rows == old(rows) + [TokenRow(old(nextId), userId, Hash(raw, salt), expiresAt)]
      ensures Held(rows, userId) == Held(old(rows), userId) + 1
    {
      raw := random;
      var row := TokenRow(nextId, userId, Hash(raw, salt), expiresAt);
      HeldConcat(rows, [row], userId);
      assert Held([row], userId) == 1 + Held([row][1..], userId);
      rows := rows + [row];
      nextId := nextId + 1;
    }

    method DeleteById(id: nat) returns (ok: bool)
      requires Valid()
      modifies this`rows
      ensures Valid()
      ensures ok == HasRow(old(rows), id) && rows == WithoutRow(old(rows), id)
    {
      ok := HasRow(rows, id);
      WithoutRowMembers(rows, id);
      WithoutRowDistinct(rows, id);
      rows := WithoutRow(rows, id);
    }

    /** Scans the table for the token; a matching row is deleted whether expired or not. */
    method Consume(raw: string, now: int) returns (result: Consumed)
      requires Valid()
      modifies this`rows
      ensures Valid()
      ensures (result, rows) == ConsumeIn(old(rows), raw, now)
    {
      if raw == "" {
        return Rejected;
      }
      var tokens := rows;
      var matched: Option<TokenRow> := None;
      var i := 0;
      assert tokens[0..] == tokens;
      while i < |tokens|
        invariant 0 <= i <= |tokens| && matched.None?
        invariant FirstMatch(tokens[i..], raw) == FirstMatch(tokens, raw)
      {
        var t := tokens[i];
        assert tokens[i..][0] == t && tokens[i..][1..] == tokens[i + 1..];
        if t.userId != "" && Matches(raw, t.tokenHash) {
          matched := Some(t);
          break;
        }
        i := i + 1;
      }
      assert matched == FirstMatch(tokens, raw);
      FirstMatchFacts(tokens, raw);
      if matched.None? || matched.value.expiresAt < now {
        if matched.Some? {
          var _ := DeleteById(matched.value.id);
        }
        return Rejected;
      }
      var ok := DeleteById(matched.value.id);
      assert ok by {
        var k :| 0 <= k < |tokens| && tokens[k] == matched.value;
      }
      result := Accepted(matched.value.userId);
    }

    method RevokeAllForUser(userId: string)
      requires Valid()
      modifies this`rows
      ensures Valid()
      ensures rows == WithoutUser(old(rows), userId) && Held(rows, userId) == 0
    {
      WithoutUserMembers(rows, userId);
      WithoutUserDistinct(rows, userId);
      HeldWithoutUser(rows, userId, userId);
      rows := WithoutUser(rows, userId);
    }
  }

  lemma {:induction false} WithoutRowDistinct(rows: seq<TokenRow>, id: nat)
    requires DistinctRows(rows)
    ensures DistinctRows(WithoutRow(rows, id))
  {
    if rows != [] {
      var rest := rows[1..];
      assert forall i :: 0 <= i < |rest| ==> rest[i] == rows[i + 1];
      WithoutRowDistinct(rest, id);
      WithoutRowMembers(rest, id);
      var tail := WithoutRow(rest, id);
      assert forall i :: 0 <= i < |tail| ==> tail[i] in rest;
    }
  }

  lemma {:induction false} WithoutUserDistinct(rows: seq<TokenRow>, userId: string)
    requires DistinctRows(rows)
    ensures DistinctRows(WithoutUser(rows, userId))
  {
    if rows != [] {
      var rest := rows[1..];
      assert forall i :: 0 <= i < |rest| ==> rest[i] == rows[i + 1];
      WithoutUserDistinct(rest, userId);
      WithoutUserMembers(rest, userId);
      var tail := WithoutUser(rest, userId);
      assert forall i :: 0 <= i < |tail| ==> tail[i] in rest;
    }
  }

  // ------------------------------------------------------------ sessions

  datatype Session = Session(userId: string, refreshToken: string) | Unauthorized

  /** The session operations that compose token-store steps. */
  class AuthService {
    const tokens: RefreshTokensService
    const ttlMs: int
    var users: set<string>

    constructor (tokens: RefreshTokensService, ttlMs: int, users: set<string>)
      ensures this.tokens == tokens && this.ttlMs == ttlMs && this.users == users
    {
      this.tokens, this.ttlMs, this.users := tokens, ttlMs, users;
    }

    /** Mints a session for a known user: one more token, expiring after the configured time. */
    method IssueTokens(userId: string, now: int, random: string, salt: nat) returns (session: Session)
      requires tokens.Valid()
      modifies tokens
      ensures tokens.Valid()
      ensures userId !in users ==> session == Unauthorized && tokens.rows == old(tokens.rows)
      ensures userId in users ==>
        && session == Session(userId, random)
        && tokens.rows == old(tokens.rows) + [TokenRow(old(tokens.nextId), userId, Hash(random, salt), now + ttlMs)]
        && Held(tokens.rows, userId) == Held(old(tokens.rows), userId) + 1
    {
      if userId !in users {
        return Unauthorized;
      }
      var raw := tokens.Issue(userId, now + ttlMs, random, salt);
      session := Session(userId, raw);
    }

    /** Rotation: a successful refresh trades the token for a new one of the same
        user, who holds as many as before; the traded token is gone. */
    method Refresh(raw: string, now: int, random: string, salt: nat) returns (session: Session)
      requires tokens.Valid()
      modifies tokens
      ensures tokens.Valid()
      ensures var (consumed, left) := ConsumeIn(old(tokens.rows), raw, now);
        && (session.Session? <==> consumed.Accepted? && consumed.userId in users)
        && (session.Session? ==>
              && session == Session(consumed.userId, random)
              && tokens.rows == left + [TokenRow(old(tokens.nextId), consumed.userId, Hash(random, salt), now + ttlMs)]
              && Held(tokens.rows, consumed.userId) == Held(old(tokens.rows), consumed.userId))
        && (!session.Session? ==> tokens.rows == left)
    {
      ghost var before := tokens.rows;
      FirstMatchFacts(before, raw);
      var consumed := tokens.Consume(raw, now);
      if !consumed.Accepted? {
        return Unauthorized;
      }
      HeldWithoutRow(before, FirstMatch(before, raw).value, consumed.userId);
      session := IssueTokens(consumed.userId, now, random, salt);
    }

    /** Logout: if the token is still good, its user is left with no token at all;
        any failure is swallowed. */
    method Logout(raw: string, now: int)
      requires tokens.Valid()
      modifies tokens
      ensures tokens.Valid()
      ensures var (consumed, left) := ConsumeIn(old(tokens.rows), raw, now);
        && (consumed.Accepted? ==>
              tokens.rows == WithoutUser(left, consumed.userId) && Held(tokens.rows, consumed.userId) == 0)
        && (!consumed.Accepted? ==> tokens.rows == left)
    {
      if raw == "" {
        return;
      }
      var consumed := tokens.Consume(raw, now);
      if consumed.Accepted? {
        tokens.RevokeAllForUser(consumed.userId);
      }
    }
  }
}
