/** Refresh-token rotation (backend/src/auth.service.ts). A refresh reads its token, and claims it in
    a later transaction; any other steps may come between. Tokens stand for their own hashes. */
module Auth {
  import opened Outcomes

  type Token = string
  type UserId = string
  type Time = int

  const REFRESH_TOKEN_TTL_MS: int := 30 * 24 * 60 * 60 * 1000

  datatype Row = Row(user: UserId, expiresAt: Time, revokedAt: Option<Time>, replacedBy: Option<Token>)

  type Tokens = map<Token, Row>

  datatype Reply = Session(user: UserId, token: Token) | Unauthorized

  predicate Live(tokens: Tokens, t: Token) {
    t in tokens && tokens[t].revokedAt.None?
  }

  // ----- the operations as functions of the stored tokens -----

  function NewRow(user: UserId, now: Time): Row {
    Row(user, now + REFRESH_TOKEN_TTL_MS, None, None)
  }

  /** updateMany over the unrevoked tokens of a user. */
  function RevokeAll(tokens: Tokens, user: UserId, now: Time): Tokens {
    map t | t in tokens ::
      if tokens[t].user == user && tokens[t].revokedAt.None? then tokens[t].(revokedAt := Some(now)) else tokens[t]
  }

  /** Exactly the user's unrevoked tokens are revoked, now; no other token is touched. */
  predicate RevokesOnly(tokens: Tokens, tokens': Tokens, user: UserId, now: Time) {
    && tokens'.Keys == tokens.Keys
    && forall t :: t in tokens ==>
         if tokens[t].user == user && tokens[t].revokedAt.None? then
           tokens'[t] == Row(user, tokens[t].expiresAt, Some(now), tokens[t].replacedBy)
         else
           tokens'[t] == tokens[t]
  }

  /** The write half of refresh, for the record that its read half saw. The claim fails when the token
      was revoked since; the throw then undoes the revocation that precedes it. */
  function Rotated(tokens: Tokens, token: Token, record: Option<Row>, issued: Token, readAt: Time, now: Time)
    : (Tokens, Reply)
  {
    if record.None? || record.value.expiresAt <= readAt then
      (tokens, Unauthorized)
    else if record.value.revokedAt.Some? then
      (RevokeAll(tokens, record.value.user, now), Unauthorized)
    else if Live(tokens, token) then
      var claimed := tokens[token].(revokedAt := Some(now), replacedBy := Some(issued));
      (tokens[token := claimed][issued := NewRow(record.value.user, now)], Session(record.value.user, issued))
    else
      (tokens, Unauthorized)
  }

  function Find(tokens: Tokens, token: Token): Option<Row> {
    if token in tokens then Some(tokens[token]) else None
  }

  class AuthService {
    var tokens: Tokens

    constructor ()
      ensures tokens == map[]
    {
      tokens := map[];
    }

    method IssueSession(user: UserId, issued: Token, now: Time) returns (reply: Reply)
      modifies this
      ensures tokens == old(tokens)[issued := NewRow(user, now)] && reply == Session(user, issued)
    {
      tokens := tokens[issued := Row(user, now + REFRESH_TOKEN_TTL_MS, None, None)];
      reply := Session(user, issued);
    }

    /** The first half of refresh and of logout. */
    method FindUnique(token: Token) returns (record: Option<Row>)
      ensures record == Find(tokens, token)
    {
      record := if token in tokens then Some(tokens[token]) else None;
    }

    method UpdateManyUnrevoked(user: UserId, now: Time)
      modifies this
      ensures tokens == RevokeAll(old(tokens), user, now)
      ensures RevokesOnly(old(tokens), tokens, user, now)
    {
      var todo := tokens.Keys;
      while todo != {}
        invariant todo <= tokens.Keys == old(tokens).Keys
        invariant forall t :: t in tokens ==>
                    tokens[t] == if t in todo then old(tokens)[t] else RevokeAll(old(tokens), user, now)[t]
        decreases |todo|
      {
        var t :| t in todo;
        if tokens[t].user == user && tokens[t].revokedAt.None? {
          tokens := tokens[t := tokens[t].(revokedAt := Some(now))];
        }
        todo := todo - {t};
      }
    }

    /** The second half of refresh. */
    method Rotate(token: Token, record: Option<Row>, issued: Token, readAt: Time, now: Time) returns (reply: Reply)
      modifies this
      ensures (tokens, reply) == Rotated(old(tokens), token, record, issued, readAt, now)
    {
      if record.None? || record.value.expiresAt <= readAt {
        return Unauthorized;
      }
      if record.value.revokedAt.Some? {
        UpdateManyUnrevoked(record.value.user, now);
        return Unauthorized;
      }
      var before := tokens;
      var claimed := 0;
      if token in tokens && tokens[token].revokedAt.None? {
        tokens := tokens[token := tokens[token].(revokedAt := Some(now), replacedBy := Some(issued))];
        claimed := 1;
      }
      if claimed != 1 {
        UpdateManyUnrevoked(record.value.user, now);
        tokens := before;  // the transaction rolls back
        return Unauthorized;
      }
      reply := IssueSession(record.value.user, issued, now);
    }

    /** refresh, when nothing comes between its halves. */
    method Refresh(token: Token, issued: Token, readAt: Time, now: Time) returns (reply: Reply)
      modifies this
      ensures (tokens, reply) == Rotated(old(tokens), token, Find(old(tokens), token), issued, readAt, now)
      ensures reply.Session? <==> Live(old(tokens), token) && old(tokens)[token].expiresAt > readAt
    {
      var record := FindUnique(token);
      reply := Rotate(token, record, issued, readAt, now);
    }

    /** The second half of logout. */
    method RevokeSessions(record: Option<Row>, now: Time)
      modifies this
      ensures tokens == if record.Some? then RevokeAll(old(tokens), record.value.user, now) else old(tokens)
    {
      if record.Some? {
        UpdateManyUnrevoked(record.value.user, now);
      }
    }

    /** logout, when nothing comes between its halves. */
    method Logout(token: Token, now: Time)
      modifies this
      ensures token in old(tokens) ==> LoggedOut(tokens, old(tokens)[token].user)
      ensures token !in old(tokens) ==> tokens == old(tokens)
      ensures RowsLater(old(tokens), tokens)
    {
      var record := FindUnique(token);
      RevokeSessions(record, now);
    }
  }

  // ----- runs -----

  /** The writes of logins, refreshes and logouts in any order; `read` is the state the call read. */
  datatype Step =
    | Login(user: UserId, issued: Token, now: Time)
    | Refresh(read: nat, token: Token, issued: Token, readAt: Time, now: Time)
    | Logout(read: nat, token: Token, now: Time)

  predicate Enabled(past: seq<Tokens>, s: Step)
    requires past != []
  {
    match s
    case Login(_, issued, _) => issued !in past[|past| - 1]
    case Refresh(read, _, issued, _, _) => read < |past| && issued !in past[|past| - 1]
    case Logout(read, _, _) => read < |past|
  }

  function Write(past: seq<Tokens>, s: Step): (Tokens, Reply)
    requires past != [] && Enabled(past, s)
  {
    var tokens := past[|past| - 1];
    match s
    case Login(user, issued, now) => (tokens[issued := NewRow(user, now)], Session(user, issued))
    case Refresh(read, token, issued, readAt, now) =>
      Rotated(tokens, token, Find(past[read], token), issued, readAt, now)
    case Logout(read, token, now) =>
      var record := Find(past[read], token);
      (if record.Some? then RevokeAll(tokens, record.value.user, now) else tokens, Unauthorized)
  }

  predicate StepsTo(states: seq<Tokens>, s: Step, i: nat)
    requires i + 1 < |states|
  {
    Enabled(states[..i + 1], s) && states[i + 1] == Write(states[..i + 1], s).0
  }

  predicate Run(states: seq<Tokens>, steps: seq<Step>) {
    && |states| == |steps| + 1
    && states[0] == map[]
    && (forall i {:trigger StepsTo(states, steps[i], i)} :: 0 <= i < |steps| ==> StepsTo(states, steps[i], i))
  }

  /** Step `i` replaced token `t`. */
  predicate Replaces(states: seq<Tokens>, steps: seq<Step>, i: nat, t: Token)
    requires Run(states, steps)
  {
    i < |steps| && steps[i].Refresh? && steps[i].token == t &&
    assert StepsTo(states, steps[i], i); Write(states[..i + 1], steps[i]).1.Session?
  }

  /** The login each token descends from, as the index of its step. */
  function Origins(states: seq<Tokens>, steps: seq<Step>, n: nat): map<Token, nat>
    requires Run(states, steps) && n <= |steps|
  {
    if n == 0 then
      map[]
    else
      var before, s := Origins(states, steps, n - 1), steps[n - 1];
      assert StepsTo(states, s, n - 1);
      if s.Login? then before[s.issued := n - 1]
      else if s.Refresh? && Write(states[..n], s).1.Session? && s.token in before then
        before[s.issued := before[s.token]]
      else before
  }

  /** A step of a run, without its history. */
  lemma StepAt(states: seq<Tokens>, steps: seq<Step>, i: nat)
    requires Run(states, steps) && i < |steps|
    ensures Enabled(states[..i + 1], steps[i])
    ensures states[..i + 1][i] == states[i] && |states[..i + 1]| == i + 1
    ensures states[i + 1] == Write(states[..i + 1], steps[i]).0
  {
    assert StepsTo(states, steps[i], i);
  }

  // ----- what each step does, exactly -----

  function ReplyAt(states: seq<Tokens>, steps: seq<Step>, i: nat): Reply
    requires Run(states, steps) && i < |steps|
  {
    assert StepsTo(states, steps[i], i);
    Write(states[..i + 1], steps[i]).1
  }

  /** A token of the user for thirty days, in milliseconds. */
  function Issued(user: UserId, now: Time): Row {
    Row(user, now + 2592000000, None, None)
  }

  /** A refresh that saw `seen`: an unknown or expired token is refused; one seen revoked revokes all the
      user's tokens; one revoked since is refused; a live one is revoked and replaced. */
  predicate Refreshes(seen: Tokens, tokens: Tokens, tokens': Tokens, reply: Reply, s: Step)
    requires s.Refresh?
  {
    if s.token !in seen || seen[s.token].expiresAt <= s.readAt then
      tokens' == tokens && reply == Unauthorized
    else if seen[s.token].revokedAt.Some? then
      RevokesOnly(tokens, tokens', seen[s.token].user, s.now) && reply == Unauthorized
    else if s.token !in tokens || tokens[s.token].revokedAt.Some? then
      tokens' == tokens && reply == Unauthorized
    else
      var user, row := seen[s.token].user, tokens[s.token];
      && tokens' == tokens[s.token := Row(row.user, row.expiresAt, Some(s.now), Some(s.issued))]
                          [s.issued := Issued(user, s.now)]
      && reply == Session(user, s.issued)
  }

  predicate LogsOut(seen: Tokens, tokens: Tokens, tokens': Tokens, s: Step)
    requires s.Logout?
  {
    if s.token in seen then RevokesOnly(tokens, tokens', seen[s.token].user, s.now) else tokens' == tokens
  }

  /** Every step of a run, exactly. */
  lemma StepIsExact(states: seq<Tokens>, steps: seq<Step>, i: nat)
    requires Run(states, steps) && i + 1 < |states| && i < |steps|
    requires !steps[i].Login? ==> steps[i].read < |states|
    ensures match steps[i]
            case Login(user, issued, now) =>
              states[i + 1] == states[i][issued := Issued(user, now)] &&
              ReplyAt(states, steps, i) == Session(user, issued)
            case Refresh(read, _, _, _, _) =>
              Refreshes(states[read], states[i], states[i + 1], ReplyAt(states, steps, i), steps[i])
            case Logout(read, _, _) => LogsOut(states[read], states[i], states[i + 1], steps[i])
  {
    StepAt(states, steps, i);
    var s := steps[i];
    assert !s.Login? ==> states[..i + 1][s.read] == states[s.read];
  }

  // ----- what no step undoes -----

  /** Rows are never deleted, and a revoked row never changes again. */
  predicate RowsLater(a: Tokens, b: Tokens) {
    forall t :: t in a ==> t in b && b[t].user == a[t].user && (a[t].revokedAt.Some? ==> b[t] == a[t])
  }

  lemma {:induction false} RevokedStaysRevoked(states: seq<Tokens>, steps: seq<Step>, i: nat, j: nat)
    requires Run(states, steps) && i <= j < |states|
    ensures RowsLater(states[i], states[j])
    decreases j - i
  {
    if i < j {
      RevokedStaysRevoked(states, steps, i, j - 1);
      StepAt(states, steps, j - 1);
    }
  }

  lemma ReplacementFacts(states: seq<Tokens>, steps: seq<Step>, i: nat, t: Token)
    requires Run(states, steps) && Replaces(states, steps, i, t)
    ensures Live(states[i], t) && t in states[i + 1] && states[i + 1][t].revokedAt.Some?
    ensures steps[i].issued !in states[i] && Live(states[i + 1], steps[i].issued) && steps[i].issued != t
    ensures states[i + 1][t].replacedBy == Some(steps[i].issued) &&
            states[i + 1][steps[i].issued].user == states[i][t].user
    ensures forall u :: u in states[i] && u != t ==> u in states[i + 1] && states[i + 1][u] == states[i][u]
    ensures forall u :: u in states[i + 1] && u != steps[i].issued ==> u in states[i]
  {
    StepAt(states, steps, i);
    var s := steps[i];
    RevokedStaysRevoked(states, steps, s.read, i);
  }

  /** Every refresh token is replaced at most once, however its refreshes interleave. */
  lemma AtMostOneSuccessor(states: seq<Tokens>, steps: seq<Step>, i: nat, j: nat, t: Token)
    requires Run(states, steps) && Replaces(states, steps, i, t) && Replaces(states, steps, j, t)
    ensures i == j
  {
    ReplacementFacts(states, steps, i, t);
    ReplacementFacts(states, steps, j, t);
    if i < j {
      RevokedStaysRevoked(states, steps, i + 1, j);
    } else if j < i {
      RevokedStaysRevoked(states, steps, j + 1, i);
    }
  }

  // ----- lineages -----

  predicate OriginsCover(tokens: Tokens, origins: map<Token, nat>, n: nat) {
    origins.Keys == tokens.Keys && forall t :: t in origins ==> origins[t] < n
  }

  predicate OneLivePerLogin(tokens: Tokens, origins: map<Token, nat>) {
    forall a, b :: a in origins && b in origins && Live(tokens, a) && Live(tokens, b) && origins[a] == origins[b] ==>
        a == b
  }

  lemma RevocationKeepsLineages(tokens: Tokens, user: UserId, now: Time, origins: map<Token, nat>)
    requires OneLivePerLogin(tokens, origins)
    ensures OneLivePerLogin(RevokeAll(tokens, user, now), origins)
  {
    forall t | Live(RevokeAll(tokens, user, now), t) ensures Live(tokens, t) {
    }
  }

  lemma LoginKeepsLineages(tokens: Tokens, origins: map<Token, nat>, n: nat, issued: Token, row: Row)
    requires OriginsCover(tokens, origins, n) && OneLivePerLogin(tokens, origins) && issued !in tokens
    ensures OriginsCover(tokens[issued := row], origins[issued := n], n + 1)
    ensures OneLivePerLogin(tokens[issued := row], origins[issued := n])
  {
  }

  lemma ReplacementKeepsLineages(tokens: Tokens, origins: map<Token, nat>, n: nat, t: Token, issued: Token,
      claimed: Row, row: Row)
    requires OriginsCover(tokens, origins, n) && OneLivePerLogin(tokens, origins)
    requires Live(tokens, t) && issued !in tokens && claimed.revokedAt.Some?
    ensures var tokens', origins' := tokens[t := claimed][issued := row], origins[issued := origins[t]];
      OriginsCover(tokens', origins', n + 1) && OneLivePerLogin(tokens', origins')
  {
    var tokens', origins' := tokens[t := claimed][issued := row], origins[issued := origins[t]];
    assert forall x :: x in origins && Live(tokens', x) ==> Live(tokens, x) && x != t;
  }

  lemma {:induction false} LineagesHold(states: seq<Tokens>, steps: seq<Step>, n: nat)
    requires Run(states, steps) && n <= |steps|
    ensures OriginsCover(states[n], Origins(states, steps, n), n)
    ensures OneLivePerLogin(states[n], Origins(states, steps, n))
  {
    if n > 0 {
      LineagesHold(states, steps, n - 1);
      StepAt(states, steps, n - 1);
      var s, origins := steps[n - 1], Origins(states, steps, n - 1);
      if s.Login? {
        LoginKeepsLineages(states[n - 1], origins, n - 1, s.issued, NewRow(s.user, s.now));
      } else if Replaces(states, steps, n - 1, s.token) {
        ReplacementFacts(states, steps, n - 1, s.token);
        ReplacementKeepsLineages(states[n - 1], origins, n - 1, s.token, s.issued, states[n][s.token],
            states[n][s.issued]);
        assert states[n] == states[n - 1][s.token := states[n][s.token]][s.issued := states[n][s.issued]];
      } else if states[n] != states[n - 1] {
        var user := Find(states[s.read], s.token).value.user;
        assert states[n] == RevokeAll(states[n - 1], user, s.now);
        RevocationKeepsLineages(states[n - 1], user, s.now, origins);
      }
    }
  }

  /** At most one token of each login is live at any time. */
  lemma AtMostOneLiveTokenPerLogin(states: seq<Tokens>, steps: seq<Step>, n: nat, a: Token, b: Token)
    requires Run(states, steps) && n <= |steps| && Live(states[n], a) && Live(states[n], b)
    ensures a in Origins(states, steps, n) && b in Origins(states, steps, n)
    ensures Origins(states, steps, n)[a] == Origins(states, steps, n)[b] ==> a == b
  {
    LineagesHold(states, steps, n);
  }

  /** No token of the user is live. */
  predicate LoggedOut(tokens: Tokens, user: UserId) {
    forall t :: t in tokens && tokens[t].user == user ==> tokens[t].revokedAt.Some?
  }

  lemma LoginIsAnOrigin(states: seq<Tokens>, steps: seq<Step>, n: nat)
    requires Run(states, steps) && 0 < n <= |steps| && steps[n - 1].Login?
    ensures steps[n - 1].issued in Origins(states, steps, n) && Origins(states, steps, n)[steps[n - 1].issued] == n - 1
  {
  }

  /** A live token was live before the step, or stands for a live token of the same user and login. */
  lemma LiveBefore(states: seq<Tokens>, steps: seq<Step>, n: nat, t: Token) returns (u: Token)
    requires Run(states, steps) && 0 < n <= |steps| && Live(states[n], t)
    requires !(steps[n - 1].Login? && t == steps[n - 1].issued)
    ensures Live(states[n - 1], u) && states[n - 1][u].user == states[n][t].user
    ensures u in Origins(states, steps, n - 1) && t in Origins(states, steps, n)
    ensures Origins(states, steps, n)[t] == Origins(states, steps, n - 1)[u]
  {
    hide OneLivePerLogin;
    LineagesHold(states, steps, n - 1);
    StepAt(states, steps, n - 1);
    var s := steps[n - 1];
    u := t;
    if s.Refresh? && Replaces(states, steps, n - 1, s.token) {
      ReplacementFacts(states, steps, n - 1, s.token);
      u := if t == s.issued then s.token else t;
    }
  }

  /** After all tokens of a user have been revoked, whatever refreshes were under way, every token of
      the user that is live later descends from a login made after the revocation. */
  lemma {:induction false} LiveTokensComeFromLaterLogins(states: seq<Tokens>, steps: seq<Step>, r: nat, n: nat,
      user: UserId, t: Token)
    requires Run(states, steps) && r <= n <= |steps| && LoggedOut(states[r], user)
    requires Live(states[n], t) && states[n][t].user == user
    ensures t in Origins(states, steps, n) && Origins(states, steps, n)[t] >= r
    decreases n
  {
    hide OneLivePerLogin, Run, Origins;
    LineagesHold(states, steps, n);
    if r < n && !(steps[n - 1].Login? && t == steps[n - 1].issued) {
      var u := LiveBefore(states, steps, n, t);
      LiveTokensComeFromLaterLogins(states, steps, r, n - 1, user, u);
    } else if r < n {
      LoginIsAnOrigin(states, steps, n);
    }
  }

  /** A logout with a known token, and a refresh whose read already saw its token revoked, log the
      user out everywhere. */
  lemma RevocationLogsOut(states: seq<Tokens>, steps: seq<Step>, i: nat)
    requires Run(states, steps) && i < |steps| && !steps[i].Login?
    requires steps[i].read < |states| && steps[i].token in states[steps[i].read]
    requires steps[i].Refresh? ==>
               && states[steps[i].read][steps[i].token].expiresAt > steps[i].readAt
               && states[steps[i].read][steps[i].token].revokedAt.Some?
    ensures LoggedOut(states[i + 1], states[steps[i].read][steps[i].token].user)
  {
    StepAt(states, steps, i);
  }

  /** The exact condition for reuse to be punished: a token revoked by now is presented, and the
      refresh logs its user out exactly when its read already saw the revocation, or the user had no
      live token anyway. The revocation in the losing branch of the claim has no effect. */
  lemma ReuseIsPunishedExactlyWhen(tokens: Tokens, record: Row, token: Token, issued: Token, readAt: Time, now: Time)
    requires record.expiresAt > readAt && token in tokens && !Live(tokens, token)
    ensures LoggedOut(Rotated(tokens, token, Some(record), issued, readAt, now).0, record.user) <==>
            record.revokedAt.Some? || LoggedOut(tokens, record.user)
  {
  }

  /** A race that goes unpunished: two refreshes read the same live token; the first one's session
      survives the second one's attempt. */
  lemma RacingReuseKeepsTheWinner(tokens: Tokens, token: Token, first: Token, second: Token, readAt: Time, now: Time)
    requires Live(tokens, token) && tokens[token].expiresAt > readAt
    requires first !in tokens && second !in tokens && first != second
    ensures var (won, reply) := Rotated(tokens, token, Some(tokens[token]), first, readAt, now);
      && reply == Session(tokens[token].user, first)
      && Rotated(won, token, Some(tokens[token]), second, readAt, now) == (won, Unauthorized)
      && Live(won, first)
  {
  }
}
