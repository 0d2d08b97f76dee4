/**
 Refresh tokens under concurrency. Consuming a token takes three steps that
 other requests may come between: read the table, check the expiry, delete the row.
 */
module TokenRace {
  import opened Prelude
  import opened RefreshTokens

  /** How far one request's `consume` has come. */
  datatype Progress =
    | Scanned(raw: string, matched: Option<TokenRow>)
    | Checked(raw: string, row: TokenRow, at: int)

  /** What happened, in order. `upTo` is how many tokens had been issued by then. */
  datatype Event =
    | TokenAccepted(raw: string, row: TokenRow, at: int)
    | TokenDiscarded(raw: string, row: TokenRow, at: int)
    | TokenRefused(raw: string)
    | TokenMissing(raw: string)
    | UserRevoked(userId: string, upTo: nat)

  /** `issued` remembers every token ever issued; its ids are its positions. */
  datatype State = State(rows: seq<TokenRow>, issued: seq<TokenRow>, requests: map<nat, Progress>, log: seq<Event>)

  datatype Step =
    | Issue(userId: string, expiresAt: int, secret: string, salt: nat)
    | Scan(request: nat, raw: string)
    | Check(request: nat, now: int)
    | Delete(request: nat)
    | RevokeAll(userId: string)

  function Finish(s: State, request: nat, e: Event): State {
    s.(requests := s.requests - {request}, log := s.log + [e])
  }

  /** One step; a step its request is not ready for changes nothing. */
  function Next(s: State, step: Step): State {
    match step
    case Issue(userId, expiresAt, secret, salt) =>
      var row := TokenRow(|s.issued|, userId, Hash(secret, salt), expiresAt);
      s.(rows := s.rows + [row], issued := s.issued + [row])
    case Scan(request, raw) =>
      if request in s.requests then s
      else if raw == "" then s.(log := s.log + [TokenRefused(raw)])
      else s.(requests := s.requests[request := Scanned(raw, FirstMatch(s.rows, raw))])
    case Check(request, now) =>
      if request !in s.requests || !s.requests[request].Scanned? then s
      else
        var raw := s.requests[request].raw;
        (match s.requests[request].matched
         case None => Finish(s, request, TokenRefused(raw))
         case Some(row) => s.(requests := s.requests[request := Checked(raw, row, now)]))
    case Delete(request) =>
      if request !in s.requests || !s.requests[request].Checked? then s
      else
        var Checked(raw, row, at) := s.requests[request];
        (match Deleted(s.rows, row.id)
         case None => Finish(s, request, TokenMissing(raw))
         case Some(rest) =>
           Finish(s.(rows := rest), request,
                  if row.expiresAt < at then TokenDiscarded(raw, row, at) else TokenAccepted(raw, row, at)))
    case RevokeAll(userId) =>
      s.(rows := WithoutUser(s.rows, userId), log := s.log + [UserRevoked(userId, |s.issued|)])
  }

  function Run(steps: seq<Step>): State {
    if steps == [] then State([], [], map[], [])
    else Next(Run(steps[..|steps| - 1]), steps[|steps| - 1])
  }

  lemma RunStep(steps: seq<Step>, step: Step)
    ensures Run(steps + [step]) == Next(Run(steps), step)
  {
    assert (steps + [step])[..|steps|] == steps;
  }

  // ------------------------------------------------------------ invariant

  /** The event used the token of this row up. */
  predicate Spends(e: Event, id: nat) {
    (e.TokenAccepted? || e.TokenDiscarded?) && e.row.id == id
  }

  /** The event revoked every token its user had been issued, this one among them. */
  predicate Revokes(e: Event, row: TokenRow) {
    e.UserRevoked? && e.userId == row.userId && row.id < e.upTo
  }

  predicate Gone(log: seq<Event>, row: TokenRow) {
    exists i :: 0 <= i < |log| && (Spends(log[i], row.id) || Revokes(log[i], row))
  }

  predicate KnownRow(issued: seq<TokenRow>, row: TokenRow) {
    row.id < |issued| && issued[row.id] == row
  }

  ghost predicate TableOk(s: State) {
    && (forall i :: 0 <= i < |s.issued| ==> s.issued[i].id == i)
    && DistinctRows(s.rows)
    && (forall r :: r in s.rows <==> KnownRow(s.issued, r) && !Gone(s.log, r))
  }

  predicate ProgressOk(issued: seq<TokenRow>, p: Progress) {
    match p
    case Scanned(raw, matched) =>
      matched.Some? ==> KnownRow(issued, matched.value) && Matches(raw, matched.value.tokenHash)
    case Checked(raw, row, at) => KnownRow(issued, row) && Matches(raw, row.tokenHash)
  }

  predicate EventOk(issued: seq<TokenRow>, e: Event) {
    match e
    case TokenAccepted(raw, row, at) => KnownRow(issued, row) && Matches(raw, row.tokenHash) && at <= row.expiresAt
    case TokenDiscarded(raw, row, at) => KnownRow(issued, row) && Matches(raw, row.tokenHash) && row.expiresAt < at
    case UserRevoked(userId, upTo) => upTo <= |issued|
    case _ => true
  }

  /** No event spends a row that an earlier event spent or revoked. */
  ghost predicate SpentOnce(log: seq<Event>) {
    forall i, j, id :: 0 <= i < j < |log| && Spends(log[j], id) ==> !Spends(log[i], id) && !Revokes(log[i], log[j].row)
  }

  ghost predicate Inv(s: State) {
    && TableOk(s)
    && (forall p :: p in s.requests ==> ProgressOk(s.issued, s.requests[p]))
    && (forall e :: e in s.log ==> EventOk(s.issued, e))
    && SpentOnce(s.log)
  }

  lemma GoneAppend(log: seq<Event>, e: Event, row: TokenRow)
    ensures Gone(log + [e], row) <==> Gone(log, row) || Spends(e, row.id) || Revokes(e, row)
  {
    var both := log + [e];
    assert both[|log|] == e;
    if Gone(log, row) {
      var i :| 0 <= i < |log| && (Spends(log[i], row.id) || Revokes(log[i], row));
      assert both[i] == log[i];
    }
  }

  lemma IssueKeepsInv(s: State, step: Step)
    requires Inv(s) && step.Issue?
    ensures Inv(Next(s, step))
  {
    var t := Next(s, step);
    var row := t.issued[|s.issued|];
    forall i | 0 <= i < |s.log| ensures !Spends(s.log[i], row.id) && !Revokes(s.log[i], row) {
      assert s.log[i] in s.log;
    }
    forall r ensures r in t.rows <==> KnownRow(t.issued, r) && !Gone(t.log, r) {
      assert r in t.rows <==> r in s.rows || r == row;
      assert KnownRow(t.issued, r) <==> KnownRow(s.issued, r) || r == row;
    }
    assert DistinctRows(t.rows) by {
      assert forall r :: r in s.rows ==> r.id < row.id;
    }
  }

  lemma DeleteKeepsTable(s: State, row: TokenRow, e: Event)
    requires TableOk(s) && KnownRow(s.issued, row) && Spends(e, row.id)
    ensures TableOk(s.(rows := WithoutRow(s.rows, row.id), log := s.log + [e]))
  {
    var t := s.(rows := WithoutRow(s.rows, row.id), log := s.log + [e]);
    WithoutRowDistinct(s.rows, row.id);
    WithoutRowMembers(s.rows, row.id);
    forall r ensures r in t.rows <==> KnownRow(t.issued, r) && !Gone(t.log, r) {
      GoneAppend(s.log, e, r);
    }
  }

  lemma DeleteKeepsInv(s: State, request: nat)
    requires Inv(s)
    ensures Inv(Next(s, Delete(request)))
  {
    if request in s.requests && s.requests[request].Checked? {
      var Checked(raw, row, at) := s.requests[request];
      var t := Next(s, Delete(request));
      var e := t.log[|s.log|];
      if HasRow(s.rows, row.id) {
        DeleteKeepsTable(s, row, e);
        var k :| 0 <= k < |s.rows| && s.rows[k].id == row.id;
        assert s.rows[k] in s.rows;
        assert s.rows[k] == row && !Gone(s.log, row);
      } else {
        forall r ensures Gone(t.log, r) == Gone(s.log, r) {
          GoneAppend(s.log, e, r);
        }
      }
    }
  }

  lemma RevokeKeepsInv(s: State, userId: string)
    requires Inv(s)
    ensures Inv(Next(s, RevokeAll(userId)))
  {
    var t := Next(s, RevokeAll(userId));
    WithoutUserMembers(s.rows, userId);
    WithoutUserDistinct(s.rows, userId);
    forall r ensures r in t.rows <==> KnownRow(t.issued, r) && !Gone(t.log, r) {
      GoneAppend(s.log, t.log[|s.log|], r);
    }
  }

  lemma ReadKeepsInv(s: State, step: Step)
    requires Inv(s) && (step.Scan? || step.Check?)
    ensures Inv(Next(s, step))
  {
    var t := Next(s, step);
    if |t.log| > |s.log| {
      forall r ensures Gone(t.log, r) == Gone(s.log, r) {
        GoneAppend(s.log, t.log[|s.log|], r);
      }
    }
    if step.Scan? {
      FirstMatchFacts(s.rows, step.raw);
    }
  }

  /** Every interleaving keeps the table, the requests and the log consistent. In
      particular an issued token is in the table exactly until it is used or revoked. */
  lemma {:induction false} RunKeepsInv(steps: seq<Step>)
    ensures Inv(Run(steps))
  {
    if steps != [] {
      var before := steps[..|steps| - 1];
      RunKeepsInv(before);
      match steps[|steps| - 1]
      case Issue(_, _, _, _) => IssueKeepsInv(Run(before), steps[|steps| - 1]);
      case Delete(request) => DeleteKeepsInv(Run(before), request);
      case RevokeAll(userId) => RevokeKeepsInv(Run(before), userId);
      case _ => ReadKeepsInv(Run(before), steps[|steps| - 1]);
    }
  }

  // ------------------------------------------------------------ single use

  predicate IssuedBy(step: Step, row: TokenRow) {
    step.Issue? && step.userId == row.userId && step.expiresAt == row.expiresAt && step.secret == row.tokenHash.token
  }

  /** The random secrets of a run are all different. */
  ghost predicate FreshSecrets(steps: seq<Step>) {
    forall i, j :: 0 <= i < j < |steps| && steps[i].Issue? && steps[j].Issue? ==> steps[i].secret != steps[j].secret
  }

  ghost predicate DistinctTokens(issued: seq<TokenRow>) {
    forall i, j :: 0 <= i < j < |issued| ==> issued[i].tokenHash.token != issued[j].tokenHash.token
  }

  /** Issued tokens come from issue steps, and with fresh secrets no two share one. */
  lemma {:induction false} IssuedAreFresh(steps: seq<Step>)
    ensures forall r :: r in Run(steps).issued ==> exists i :: 0 <= i < |steps| && IssuedBy(steps[i], r)
    ensures FreshSecrets(steps) ==> DistinctTokens(Run(steps).issued)
  {
    if steps != [] {
      var n := |steps| - 1;
      var before := steps[..n];
      IssuedAreFresh(before);
      var issued := Run(before).issued;
      forall r | r in Run(steps).issued ensures exists i :: 0 <= i < |steps| && IssuedBy(steps[i], r) {
        if r in issued {
          var i :| 0 <= i < |before| && IssuedBy(before[i], r);
          assert IssuedBy(steps[i], r);
        } else {
          assert IssuedBy(steps[n], r);
        }
      }
      if FreshSecrets(steps) {
        assert forall i :: 0 <= i < n ==> before[i] == steps[i];
        assert FreshSecrets(before);
      }
      if FreshSecrets(steps) && steps[n].Issue? {
        forall i | 0 <= i < |issued| ensures issued[i].tokenHash.token != steps[n].secret {
          assert issued[i] in issued;
          var k :| 0 <= k < |before| && IssuedBy(before[k], issued[i]);
          assert before[k] == steps[k];
        }
        assert DistinctTokens(issued + [Run(steps).issued[|issued|]]);
      }
    }
  }

  /** Over every interleaving: an accepted token was issued to that user and was
      unexpired at its check; no revocation of that user came between its issue and
      its acceptance; and it is accepted at most once. */
  lemma SingleUse(steps: seq<Step>, j: nat)
    requires FreshSecrets(steps)
    requires j < |Run(steps).log| && Run(steps).log[j].TokenAccepted?
    ensures var log := Run(steps).log;
      && (exists k :: 0 <= k < |steps| && IssuedBy(steps[k], log[j].row) && steps[k].secret == log[j].raw)
      && log[j].at <= log[j].row.expiresAt
      && (forall i :: 0 <= i < j ==> !Revokes(log[i], log[j].row))
      && (forall i :: 0 <= i < |log| && i != j && log[i].TokenAccepted? ==> log[i].raw != log[j].raw)
  {
    var s := Run(steps);
    var log := s.log;
    RunKeepsInv(steps);
    IssuedAreFresh(steps);
    assert log[j] in log && EventOk(s.issued, log[j]);
    assert log[j].row in s.issued;
    assert Spends(log[j], log[j].row.id);
    forall i | 0 <= i < |log| && i != j && log[i].TokenAccepted? ensures log[i].raw != log[j].raw {
      assert log[i] in log && EventOk(s.issued, log[i]);
      assert Spends(log[i], log[i].row.id);
      assert log[i].row.id != log[j].row.id;
    }
  }

  /** Two requests that both passed the check with the same live token: whichever
      deletes first is accepted, and the other finds no row. */
  lemma RaceHasOneWinner(s: State, winner: nat, loser: nat)
    requires Inv(s) && winner != loser
    requires winner in s.requests && s.requests[winner].Checked?
    requires loser in s.requests && s.requests[loser].Checked?
    requires s.requests[winner].row == s.requests[loser].row && s.requests[winner].row in s.rows
    requires s.requests[winner].at <= s.requests[winner].row.expiresAt
    ensures var p := s.requests[winner];
      var t := Next(Next(s, Delete(winner)), Delete(loser));
      && t.log == s.log + [TokenAccepted(p.raw, p.row, p.at), TokenMissing(s.requests[loser].raw)]
      && t.rows == WithoutRow(s.rows, p.row.id)
  {
    var row := s.requests[winner].row;
    var k :| 0 <= k < |s.rows| && s.rows[k] == row;
    assert HasRow(s.rows, row.id);
    WithoutRowMembers(s.rows, row.id);
    var rest := WithoutRow(s.rows, row.id);
    forall i | 0 <= i < |rest| ensures rest[i].id != row.id {
      assert rest[i] in rest;
    }
  }

  /** What the caller of `consume` sees. */
  function ResultOf(e: Event): Consumed {
    match e
    case TokenAccepted(_, row, _) => Accepted(row.userId)
    case TokenMissing(_) => RecordNotFound
    case _ => Rejected
  }

  /** The three steps of one request with nothing between them are `consume` run alone. */
  lemma UninterruptedIsConsume(s: State, request: nat, raw: string, now: int)
    requires request !in s.requests
    ensures var t := Next(Next(Next(s, Scan(request, raw)), Check(request, now)), Delete(request));
      && |t.log| == |s.log| + 1 && t.log[..|s.log|] == s.log
      && !t.log[|s.log|].UserRevoked? && t.log[|s.log|].raw == raw
      && (ResultOf(t.log[|s.log|]), t.rows) == ConsumeIn(s.rows, raw, now)
      && t.issued == s.issued && t.requests == s.requests
  {
    var m := FirstMatch(s.rows, raw);
    FirstMatchFacts(s.rows, raw);
    if raw != "" && m.Some? {
      var k :| 0 <= k < |s.rows| && s.rows[k] == m.value;
      assert HasRow(s.rows, m.value.id);
    }
  }

  /** Without fresh secrets single use fails: two tokens with one secret are two uses of it. */
  lemma SharedSecretIsUsedTwice(secret: string)
    requires secret != ""
    ensures var log := Run([Issue("u", 9, secret, 0), Issue("u", 9, secret, 1),
                            Scan(0, secret), Check(0, 5), Delete(0),
                            Scan(0, secret), Check(0, 5), Delete(0)]).log;
      |log| == 2 && log[0].TokenAccepted? && log[1].TokenAccepted? && log[0].raw == log[1].raw == secret
  {
    hide Run, ConsumeIn;
    var issues := [Issue("u", 9, secret, 0), Issue("u", 9, secret, 1)];
    TwoIssued(secret);
    ConsumeRun(issues, 0, secret, 5);
    var used := issues + [Scan(0, secret), Check(0, 5), Delete(0)];
    ConsumeRun(used, 0, secret, 5);
    assert used + [Scan(0, secret), Check(0, 5), Delete(0)]
        == [issues[0], issues[1], Scan(0, secret), Check(0, 5), Delete(0), Scan(0, secret), Check(0, 5), Delete(0)];
  }

  lemma TwoIssued(secret: string)
    requires secret != ""
    ensures var s := Run([Issue("u", 9, secret, 0), Issue("u", 9, secret, 1)]);
      && s.log == [] && s.requests == map[]
      && ConsumeIn(s.rows, secret, 5).0 == Accepted("u")
      && ConsumeIn(ConsumeIn(s.rows, secret, 5).1, secret, 5).0 == Accepted("u")
  {
    var a, b := Issue("u", 9, secret, 0), Issue("u", 9, secret, 1);
    var r0, r1 := TokenRow(0, "u", Hash(secret, 0), 9), TokenRow(1, "u", Hash(secret, 1), 9);
    RunStep([], a);
    RunStep([a], b);
    assert [] + [a] == [a] && [a] + [b] == [a, b];
    assert Run([a, b]).rows == [r0, r1];
    assert [r0, r1][1..] == [r1] && [r1][1..] == [];
    assert WithoutRow([r1], 0) == [r1] + WithoutRow([], 0) == [r1];
    assert WithoutRow([r0, r1], 0) == [] + WithoutRow([r1], 0) == [r1];
  }

  lemma ConsumeRun(steps: seq<Step>, request: nat, raw: string, now: int)
    requires request !in Run(steps).requests
    ensures var s, t := Run(steps), Run(steps + [Scan(request, raw), Check(request, now), Delete(request)]);
      && |t.log| == |s.log| + 1 && t.log[..|s.log|] == s.log
      && !t.log[|s.log|].UserRevoked? && t.log[|s.log|].raw == raw
      && (ResultOf(t.log[|s.log|]), t.rows) == ConsumeIn(s.rows, raw, now)
      && t.requests == s.requests && t.issued == s.issued
  {
    var scan, check, delete := Scan(request, raw), Check(request, now), Delete(request);
    RunStep(steps, scan);
    RunStep(steps + [scan], check);
    RunStep(steps + [scan] + [check], delete);
    assert steps + [scan] + [check] + [delete] == steps + [scan, check, delete];
    UninterruptedIsConsume(Run(steps), request, raw, now);
  }

  // --------------------------------------------- how often one secret is good

  /** How many rows hold the hash of a secret. */
  function Copies(rows: seq<TokenRow>, secret: string): nat {
    if rows == [] then 0 else (if rows[0].tokenHash.token == secret then 1 else 0) + Copies(rows[1..], secret)
  }

  function TimesAccepted(log: seq<Event>, secret: string): nat {
    if log == [] then 0
    else
      var e := log[|log| - 1];
      (if e.TokenAccepted? && e.raw == secret then 1 else 0) + TimesAccepted(log[..|log| - 1], secret)
  }

  function TimesIssued(steps: seq<Step>, secret: string): nat {
    if steps == [] then 0
    else
      var step := steps[|steps| - 1];
      (if step.Issue? && step.secret == secret then 1 else 0) + TimesIssued(steps[..|steps| - 1], secret)
  }

  lemma {:induction false} CopiesAppend(rows: seq<TokenRow>, row: TokenRow, secret: string)
    ensures Copies(rows + [row], secret) == Copies(rows, secret) + if row.tokenHash.token == secret then 1 else 0
  {
    if rows == [] {
      assert [] + [row] == [row] && [row][1..] == [];
    } else {
      HeadOfSum(rows, [row]);
      CopiesAppend(rows[1..], row, secret);
    }
  }

  lemma {:induction false} CopiesWithoutRow(rows: seq<TokenRow>, row: TokenRow, secret: string)
    requires DistinctRows(rows) && row in rows
    ensures Copies(WithoutRow(rows, row.id), secret)
         == Copies(rows, secret) - if row.tokenHash.token == secret then 1 else 0
  {
    var rest := rows[1..];
    var k :| 0 <= k < |rows| && rows[k] == row;
    assert forall i :: 0 <= i < |rest| ==> rest[i] == rows[i + 1];
    if rows[0].id == row.id {
      assert k == 0;
      assert !HasRow(rest, row.id);
      WithoutRowMembers(rest, row.id);
      assert WithoutRow(rows, row.id) == rest;
    } else {
      assert rest[k - 1] == row;
      CopiesWithoutRow(rest, row, secret);
      HeadOfSum([rows[0]], WithoutRow(rest, row.id));
      assert [rows[0]][1..] == [];
      assert [] + WithoutRow(rest, row.id) == WithoutRow(rest, row.id);
    }
  }

  lemma {:induction false} CopiesWithoutUser(rows: seq<TokenRow>, userId: string, secret: string)
    ensures Copies(WithoutUser(rows, userId), secret) <= Copies(rows, secret)
  {
    if rows != [] {
      var rest := WithoutUser(rows[1..], userId);
      CopiesWithoutUser(rows[1..], userId, secret);
      assert [] + rest == rest && ([rows[0]] + rest)[1..] == rest;
    }
  }

  lemma AcceptedOne(log: seq<Event>, e: Event, secret: string)
    ensures TimesAccepted(log + [e], secret)
         == TimesAccepted(log, secret) + if e.TokenAccepted? && e.raw == secret then 1 else 0
  {
    assert (log + [e])[..|log|] == log;
  }

  lemma StepKeepsCount(s: State, step: Step, secret: string)
    requires Inv(s)
    ensures var t := Next(s, step);
      TimesAccepted(t.log, secret) + Copies(t.rows, secret)
        <= TimesAccepted(s.log, secret) + Copies(s.rows, secret) + if step.Issue? && step.secret == secret then 1 else 0
  {
    var t := Next(s, step);
    if |t.log| > |s.log| {
      AcceptedOne(s.log, t.log[|s.log|], secret);
    }
    match step
    case Issue(userId, expiresAt, raw, salt) =>
      CopiesAppend(s.rows, TokenRow(|s.issued|, userId, Hash(raw, salt), expiresAt), secret);
    case RevokeAll(userId) => CopiesWithoutUser(s.rows, userId, secret);
    case Delete(request) =>
      if request in s.requests && s.requests[request].Checked? && HasRow(s.rows, s.requests[request].row.id) {
        var row := s.requests[request].row;
        var k :| 0 <= k < |s.rows| && s.rows[k].id == row.id;
        assert s.rows[k] in s.rows;
        CopiesWithoutRow(s.rows, row, secret);
      }
    case _ =>
  }

  /** Over every interleaving, fresh secrets or not: a secret is accepted at most as
      often as it was issued. */
  lemma {:induction false} AcceptedAtMostIssued(steps: seq<Step>, secret: string)
    ensures TimesAccepted(Run(steps).log, secret) + Copies(Run(steps).rows, secret) <= TimesIssued(steps, secret)
  {
    if steps != [] {
      var before := steps[..|steps| - 1];
      AcceptedAtMostIssued(before, secret);
      RunKeepsInv(before);
      StepKeepsCount(Run(before), steps[|steps| - 1], secret);
    }
  }

  // ------------------------------------------------- logging out, interleaved

  lemma {:induction false} RunGrows(steps: seq<Step>, later: seq<Step>)
    ensures Run(steps).log <= Run(steps + later).log && Run(steps).issued <= Run(steps + later).issued
    decreases |later|
  {
    if later == [] {
      assert steps + later == steps;
    } else {
      var init, last := later[..|later| - 1], later[|later| - 1];
      RunGrows(steps, init);
      RunStep(steps + init, last);
      assert steps + init + [last] == steps + later;
    }
  }

  lemma {:induction false} HeldNone(rows: seq<TokenRow>, userId: string)
    ensures Held(rows, userId) == 0 <==> forall r :: r in rows ==> r.userId != userId
  {
    if rows != [] {
      HeldNone(rows[1..], userId);
      assert forall r :: r in rows <==> r == rows[0] || r in rows[1..];
    }
  }

  /** What a logout leaves, over every interleaving: any token of its user in the
      table later was issued after the revocation, and the user holds none if and
      only if every such token has been used or revoked. So a refresh ends with
      the logout exactly when it issues before it. */
  lemma LogoutLeavesExactlyLaterTokens(steps: seq<Step>, userId: string, later: seq<Step>)
    ensures var issuedBefore := |Run(steps).issued|;
      var end := Run(steps + [RevokeAll(userId)] + later);
      && (forall r :: r in end.rows && r.userId == userId ==> issuedBefore <= r.id)
      && (Held(end.rows, userId) == 0 <==>
            forall r :: KnownRow(end.issued, r) && r.userId == userId && issuedBefore <= r.id ==> Gone(end.log, r))
  {
    var s, cut := Run(steps), Run(steps + [RevokeAll(userId)]);
    var end := Run(steps + [RevokeAll(userId)] + later);
    RunStep(steps, RevokeAll(userId));
    RunGrows(steps + [RevokeAll(userId)], later);
    RunKeepsInv(steps + [RevokeAll(userId)] + later);
    HeldNone(end.rows, userId);
    var revoked := UserRevoked(userId, |s.issued|);
    assert cut.log[|s.log|] == revoked && end.log[|s.log|] == revoked;
    forall r | KnownRow(end.issued, r) && r.userId == userId && r.id < |s.issued| ensures Gone(end.log, r) {
      assert Revokes(end.log[|s.log|], r);
    }
  }

  /** The interleaving that outlives a logout: the refresh has deleted its token, the
      logout with another token revokes everything, then the refresh issues. */
  lemma RefreshOutlivesLogout(used: string, other: string, renewed: string)
    requires used != "" && other != "" && used != other
    ensures var end := Run([Issue("u", 9, used, 0), Issue("u", 9, other, 0),
                            Scan(0, used), Check(0, 5), Delete(0),
                            Scan(1, other), Check(1, 5), Delete(1),
                            RevokeAll("u"), Issue("u", 9, renewed, 0)]);
      end.rows == [TokenRow(2, "u", Hash(renewed, 0), 9)] && Held(end.rows, "u") == 1
  {
    hide Run, ConsumeIn;
    var issues := [Issue("u", 9, used, 0), Issue("u", 9, other, 0)];
    var refresh := issues + [Scan(0, used), Check(0, 5), Delete(0)];
    var logout := refresh + [Scan(1, other), Check(1, 5), Delete(1)];
    TwoDifferentIssued(used, other);
    ConsumeRun(issues, 0, used, 5);
    ConsumeRun(refresh, 1, other, 5);
    RevokeThenIssue(logout, renewed);
    assert logout + [RevokeAll("u")] + [Issue("u", 9, renewed, 0)]
        == [issues[0], issues[1], Scan(0, used), Check(0, 5), Delete(0), Scan(1, other), Check(1, 5), Delete(1),
            RevokeAll("u"), Issue("u", 9, renewed, 0)];
  }

  lemma RevokeThenIssue(steps: seq<Step>, renewed: string)
    requires Run(steps).rows == [] && |Run(steps).issued| == 2
    ensures var end := Run(steps + [RevokeAll("u")] + [Issue("u", 9, renewed, 0)]);
      end.rows == [TokenRow(2, "u", Hash(renewed, 0), 9)] && Held(end.rows, "u") == 1
  {
    RunStep(steps, RevokeAll("u"));
    RunStep(steps + [RevokeAll("u")], Issue("u", 9, renewed, 0));
    var last := TokenRow(2, "u", Hash(renewed, 0), 9);
    assert [last][1..] == [] && Held([last], "u") == 1 + Held([], "u");
  }

  lemma TwoDifferentIssued(used: string, other: string)
    requires used != "" && other != "" && used != other
    ensures var s := Run([Issue("u", 9, used, 0), Issue("u", 9, other, 0)]);
      && |s.issued| == 2 && s.requests == map[]
      && ConsumeIn(ConsumeIn(s.rows, used, 5).1, other, 5).1 == []
  {
    var a, b := Issue("u", 9, used, 0), Issue("u", 9, other, 0);
    var r0, r1 := TokenRow(0, "u", Hash(used, 0), 9), TokenRow(1, "u", Hash(other, 0), 9);
    RunStep([], a);
    RunStep([a], b);
    assert [] + [a] == [a] && [a] + [b] == [a, b];
    assert Run([a, b]).rows == [r0, r1];
    assert [r0, r1][1..] == [r1] && [r1][1..] == [];
    assert WithoutRow([r1], 0) == [r1] + WithoutRow([], 0) == [r1];
    assert WithoutRow([r0, r1], 0) == [] + WithoutRow([r1], 0) == [r1];
    assert WithoutRow([r1], 1) == [] + WithoutRow([], 1) == [];
  }
}
