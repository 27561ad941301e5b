/**
 Email verification links: the token table against the history of what was issued and
 accepted. A hash is a wrapped secret, so equal hashes mean equal secrets.
 */
module EmailTokens {
  import opened Options
  import opened Seqs

  datatype Hash = Sha256(secret: string)

  datatype Row = Row(user: int, email: string, tokenHash: Hash, expires: int, verified: Option<int>)

  datatype Token = Token(user: int, email: string, secret: string, expires: int)

  datatype Success = Success(token: Token, at: int)

  /** emails holds the users' current addresses; issued and accepted are histories, oldest first. */
  datatype Accounts = Accounts(
    emails: map<int, string>, rows: seq<Row>, now: int, ttl: int,
    issued: seq<Token>, accepted: seq<Success>)

  datatype Answer = OK | INVALID | EXPIRED

  function LowerChar(c: char): char {
    if 'A' <= c <= 'Z' then (c as int + 32) as char else c
  }

  function Lower(s: string): string {
    seq(|s|, i requires 0 <= i < |s| => LowerChar(s[i]))
  }

  predicate SameAddress(a: string, b: string) {
    Lower(a) == Lower(b)
  }

  predicate Outdated(r: Row, user: int) {
    r.user == user && r.verified.None?
  }

  /** issue_token: the user's unverified rows go, a row for the current address comes. */
  function IssueToken(a: Accounts, user: int, secret: string): Accounts
    requires user in a.emails
  {
    var t := Token(user, a.emails[user], secret, a.now + a.ttl);
    a.(rows := Keep(a.rows, r => !Outdated(r, user)) + [Row(user, t.email, Sha256(secret), t.expires, None)],
       issued := a.issued + [t])
  }

  /** The row with this hash, if there is one. */
  function Find(rows: seq<Row>, hash: Hash): (r: Option<nat>)
    ensures r.Some? ==> r.value < |rows| && rows[r.value].tokenHash == hash
    ensures r.None? ==> forall i :: 0 <= i < |rows| ==> rows[i].tokenHash != hash
  {
    if rows == [] then None
    else if rows[|rows| - 1].tokenHash == hash then Some(|rows| - 1)
    else Find(rows[..|rows| - 1], hash)
  }

  function VerifyToken(a: Accounts, secret: string): (Accounts, Answer) {
    var found := Find(a.rows, Sha256(secret));
    if found.None? then (a, INVALID)
    else
      var r := a.rows[found.value];
      if r.verified.Some? then (a, INVALID)
      else if a.now > r.expires then (a, EXPIRED)
      else (a.(rows := a.rows[found.value := r.(verified := Some(a.now))],
               accepted := a.accepted + [Success(AsToken(r), a.now)]), OK)
  }

  /** is_email_verified without social login. */
  predicate IsEmailVerified(a: Accounts, user: int)
    requires user in a.emails
  {
    exists i | 0 <= i < |a.rows| ::
      a.rows[i].user == user && a.rows[i].verified.Some? && SameAddress(a.rows[i].email, a.emails[user])
  }

  datatype Event =
    | Issue(user: int, secret: string)
    | Verify(secret: string)
    | ChangeEmail(user: int, email: string)
    | Advance(seconds: nat)

  function Next(a: Accounts, e: Event): Accounts {
    match e
    case Issue(user, secret) => if user in a.emails then IssueToken(a, user, secret) else a
    case Verify(secret) => VerifyToken(a, secret).0
    case ChangeEmail(user, email) => a.(emails := a.emails[user := email])
    case Advance(seconds) => a.(now := a.now + seconds)
  }

  function Run(a: Accounts, events: seq<Event>): Accounts {
    if events == [] then a else Next(Run(a, events[..|events| - 1]), events[|events| - 1])
  }

  predicate Start(a: Accounts) {
    a.rows == [] && a.issued == [] && a.accepted == []
  }

  /** What each event does; an issue for an unknown user does nothing. */
  lemma EventsDo(a: Accounts, user: int, secret: string, email: string, seconds: nat)
    ensures user in a.emails ==> Next(a, Issue(user, secret)) == IssueToken(a, user, secret)
    ensures user !in a.emails ==> Next(a, Issue(user, secret)) == a
    ensures Next(a, Verify(secret)) == VerifyToken(a, secret).0
    ensures Next(a, ChangeEmail(user, email)) ==
      Accounts(a.emails[user := email], a.rows, a.now, a.ttl, a.issued, a.accepted)
    ensures Next(a, Advance(seconds)) == Accounts(a.emails, a.rows, a.now + seconds, a.ttl, a.issued, a.accepted)
  {
  }

  /** A run takes its events one after another. */
  lemma RunOneMore(a: Accounts, events: seq<Event>, e: Event)
    ensures Run(a, []) == a
    ensures Run(a, events + [e]) == Next(Run(a, events), e)
  {
    assert (events + [e])[..|events|] == events;
  }

  /** A run may start with any addresses, at any time, with any lifetime of links. */
  lemma StartsEmpty(emails: map<int, string>, now: int, ttl: int)
    ensures Start(Accounts(emails, [], now, ttl, [], []))
  {
  }

  /** Secrets are fresh: none was issued before. */
  ghost predicate FreshSecrets(a: Accounts, events: seq<Event>) {
    events != [] ==>
      && FreshSecrets(a, events[..|events| - 1])
      && (events[|events| - 1].Issue? ==> IsFresh(Run(a, events[..|events| - 1]), events[|events| - 1].secret))
  }

  ghost predicate IsFresh(a: Accounts, secret: string) {
    forall t :: t in a.issued ==> t.secret != secret
  }

  // ------------------------------------------------------- the history's own answers

  /** The last token issued to the user. */
  function Latest(issued: seq<Token>, user: int): (t: Option<Token>)
    ensures t.Some? ==> t.value in issued && t.value.user == user
  {
    if issued == [] then None
    else if issued[|issued| - 1].user == user then Some(issued[|issued| - 1])
    else Latest(issued[..|issued| - 1], user)
  }

  ghost predicate Used(accepted: seq<Success>, t: Token) {
    exists i :: 0 <= i < |accepted| && accepted[i].token == t
  }

  /** secret is the user's latest, and has not been accepted. */
  ghost predicate Outstanding(a: Accounts, user: int, secret: string) {
    var t := Latest(a.issued, user);
    t.Some? && t.value.secret == secret && !Used(a.accepted, t.value)
  }

  // ----------------------------------------------------------------- the invariant

  function AsToken(r: Row): Token {
    Token(r.user, r.email, r.tokenHash.secret, r.expires)
  }

  function AsRow(t: Token, verified: Option<int>): Row {
    Row(t.user, t.email, Sha256(t.secret), t.expires, verified)
  }

  ghost predicate DistinctHashes(rows: seq<Row>) {
    forall i, j :: 0 <= i < j < |rows| ==> rows[i].tokenHash != rows[j].tokenHash
  }

  ghost predicate DistinctSecrets(issued: seq<Token>) {
    forall i, j :: 0 <= i < j < |issued| ==> issued[i].secret != issued[j].secret
  }

  ghost predicate AcceptedOnce(accepted: seq<Success>) {
    forall i, j :: 0 <= i < j < |accepted| ==> accepted[i].token.secret != accepted[j].token.secret
  }

  /** A row is backed by the history: an unverified one is its user's latest, a verified one was accepted. */
  ghost predicate Backed(a: Accounts, r: Row) {
    && AsToken(r) in a.issued
    && match r.verified
       case None => Latest(a.issued, r.user) == Some(AsToken(r))
       case Some(at) => Success(AsToken(r), at) in a.accepted
  }

  ghost predicate Consistent(a: Accounts) {
    && DistinctHashes(a.rows) && DistinctSecrets(a.issued) && AcceptedOnce(a.accepted)
    && (forall i :: 0 <= i < |a.rows| ==> Backed(a, a.rows[i]))
    && (forall k :: 0 <= k < |a.accepted| ==> AsRow(a.accepted[k].token, Some(a.accepted[k].at)) in a.rows)
    && (forall user :: Latest(a.issued, user).Some? ==>
          Used(a.accepted, Latest(a.issued, user).value) || AsRow(Latest(a.issued, user).value, None) in a.rows)
  }

  lemma SameHashSameRow(rows: seq<Row>, r: Row, s: Row)
    requires DistinctHashes(rows) && r in rows && s in rows && r.tokenHash == s.tokenHash
    ensures r == s
  {
  }

  lemma SameSecretSameToken(issued: seq<Token>, t: Token, u: Token)
    requires DistinctSecrets(issued) && t in issued && u in issued && t.secret == u.secret
    ensures t == u
  {
  }

  /** What the history has to say to a secret. */
  ghost predicate IsAnswer(a: Accounts, secret: string, answer: Answer) {
    && (answer != INVALID <==> exists user :: Outstanding(a, user, secret))
    && forall user :: Outstanding(a, user, secret) ==>
      answer == (if a.now <= Latest(a.issued, user).value.expires then OK else EXPIRED)
  }

  /** The table answers exactly as the history does. */
  lemma AnswerFromHistory(a: Accounts, secret: string)
    requires Consistent(a)
    ensures IsAnswer(a, secret, VerifyToken(a, secret).1)
  {
    var found := Find(a.rows, Sha256(secret));
    if found.Some? && a.rows[found.value].verified.None? {
      var r := a.rows[found.value];
      assert Backed(a, r);
      NotUsed(a, r);
      assert Outstanding(a, r.user, secret);
    }
    forall user | Outstanding(a, user, secret)
      ensures found.Some? && a.rows[found.value] == AsRow(Latest(a.issued, user).value, None)
    {
      var t := Latest(a.issued, user).value;
      SameHashSameRow(a.rows, AsRow(t, None), a.rows[found.value]);
    }
  }

  lemma NotUsed(a: Accounts, r: Row)
    requires Consistent(a) && r in a.rows && r.verified.None?
    ensures !Used(a.accepted, AsToken(r))
  {
  }

  // ------------------------------------------------------------- every step keeps it

  lemma LatestAfterIssue(issued: seq<Token>, t: Token, user: int)
    ensures Latest(issued + [t], user) == if t.user == user then Some(t) else Latest(issued, user)
  {
  }

  lemma {:induction false} KeepDistinct(rows: seq<Row>, f: Row -> bool)
    requires DistinctHashes(rows)
    ensures DistinctHashes(Keep(rows, f))
  {
    if rows != [] {
      var rest, last := rows[..|rows| - 1], rows[|rows| - 1];
      KeepDistinct(rest, f);
      forall r | r in Keep(rest, f) ensures r.tokenHash != last.tokenHash {
        var i :| 0 <= i < |rest| && rest[i] == r;
        assert rows[i] == r;
      }
    }
  }

  lemma IssueKeepsTable(a: Accounts, user: int, secret: string)
    requires Consistent(a) && user in a.emails && IsFresh(a, secret)
    ensures var b := IssueToken(a, user, secret);
      && DistinctHashes(b.rows) && DistinctSecrets(b.issued)
      && forall i :: 0 <= i < |b.rows| ==> Backed(b, b.rows[i])
  {
    var b := IssueToken(a, user, secret);
    var kept, t := Keep(a.rows, r => !Outdated(r, user)), b.issued[|a.issued|];
    KeepDistinct(a.rows, r => !Outdated(r, user));
    forall i | 0 <= i < |kept| ensures kept[i].tokenHash != Sha256(secret) && Backed(b, kept[i]) {
      assert kept[i] in a.rows;
      assert Backed(a, kept[i]);
      LatestAfterIssue(a.issued, t, kept[i].user);
    }
    LatestAfterIssue(a.issued, t, user);
    assert Backed(b, b.rows[|kept|]);
  }

  lemma IssueKeeps(a: Accounts, user: int, secret: string)
    requires Consistent(a) && user in a.emails && IsFresh(a, secret)
    ensures Consistent(IssueToken(a, user, secret))
  {
    var b := IssueToken(a, user, secret);
    var kept, t := Keep(a.rows, r => !Outdated(r, user)), b.issued[|a.issued|];
    IssueKeepsTable(a, user, secret);
    forall k | 0 <= k < |b.accepted| ensures AsRow(b.accepted[k].token, Some(b.accepted[k].at)) in b.rows {
      assert AsRow(a.accepted[k].token, Some(a.accepted[k].at)) in kept;
    }
    forall u | Latest(b.issued, u).Some?
      ensures Used(b.accepted, Latest(b.issued, u).value) || AsRow(Latest(b.issued, u).value, None) in b.rows
    {
      LatestAfterIssue(a.issued, t, u);
      if u == user {
        assert b.rows[|kept|] == AsRow(t, None);
      } else if !Used(a.accepted, Latest(a.issued, u).value) {
        assert AsRow(Latest(a.issued, u).value, None) in kept;
      }
    }
  }

  lemma UsedGrows(accepted: seq<Success>, s: Success, t: Token)
    ensures Used(accepted + [s], t) <==> Used(accepted, t) || s.token == t
  {
    var more := accepted + [s];
    assert more[|accepted|] == s;
    if Used(accepted, t) {
      var i :| 0 <= i < |accepted| && accepted[i].token == t;
      assert more[i].token == t;
    }
  }

  lemma VerifyKeepsTable(a: Accounts, secret: string)
    requires Consistent(a) && VerifyToken(a, secret).1 == OK
    ensures var b := VerifyToken(a, secret).0;
      && DistinctHashes(b.rows)
      && (forall i :: 0 <= i < |b.rows| ==> Backed(b, b.rows[i]))
      && (forall k :: 0 <= k < |b.accepted| ==> AsRow(b.accepted[k].token, Some(b.accepted[k].at)) in b.rows)
  {
    var b := VerifyToken(a, secret).0;
    var n := Find(a.rows, Sha256(secret)).value;
    forall i | 0 <= i < |b.rows| ensures Backed(b, b.rows[i]) {
      assert Backed(a, a.rows[i]);
      assert b.accepted[|a.accepted|] == Success(AsToken(a.rows[n]), a.now);
    }
    forall k | 0 <= k < |b.accepted| ensures AsRow(b.accepted[k].token, Some(b.accepted[k].at)) in b.rows {
      if k < |a.accepted| {
        var i :| 0 <= i < |a.rows| && a.rows[i] == AsRow(a.accepted[k].token, Some(a.accepted[k].at));
        assert b.rows[i] == a.rows[i];
      } else {
        assert b.rows[n] == AsRow(AsToken(a.rows[n]), Some(a.now));
      }
    }
  }

  lemma VerifyKeeps(a: Accounts, secret: string)
    requires Consistent(a)
    ensures Consistent(VerifyToken(a, secret).0)
  {
    if VerifyToken(a, secret).1 == OK {
      var b := VerifyToken(a, secret).0;
      var n := Find(a.rows, Sha256(secret)).value;
      var t := AsToken(a.rows[n]);
      VerifyKeepsTable(a, secret);
      assert Backed(a, a.rows[n]);
      NotUsed(a, a.rows[n]);
      forall k | 0 <= k < |a.accepted| ensures a.accepted[k].token.secret != secret {
        var u := a.accepted[k].token;
        SuccessWasIssued(a, k);
        if u.secret == secret {
          SameSecretSameToken(a.issued, u, t);
        }
      }
      forall user | Latest(b.issued, user).Some?
        ensures Used(b.accepted, Latest(b.issued, user).value) || AsRow(Latest(b.issued, user).value, None) in b.rows
      {
        var u := Latest(b.issued, user).value;
        UsedGrows(a.accepted, b.accepted[|a.accepted|], u);
        if !Used(b.accepted, u) {
          var i :| 0 <= i < |a.rows| && a.rows[i] == AsRow(u, None);
          assert b.rows[i] == a.rows[i];
        }
      }
    }
  }

  lemma SuccessWasIssued(a: Accounts, k: nat)
    requires Consistent(a) && k < |a.accepted|
    ensures a.accepted[k].token in a.issued
  {
  }

  lemma {:induction false} RunsAreConsistent(a: Accounts, events: seq<Event>)
    requires Start(a) && FreshSecrets(a, events)
    ensures Consistent(Run(a, events))
  {
    if events != [] {
      var rest, e := events[..|events| - 1], events[|events| - 1];
      RunsAreConsistent(a, rest);
      var before := Run(a, rest);
      match e
      case Issue(user, secret) => if user in before.emails { IssueKeeps(before, user, secret); }
      case Verify(secret) => VerifyKeeps(before, secret);
      case ChangeEmail(user, email) => SameTables(before, Next(before, e));
      case Advance(seconds) => SameTables(before, Next(before, e));
    }
  }

  lemma SameTables(a: Accounts, b: Accounts)
    requires Consistent(a) && b.rows == a.rows && b.issued == a.issued && b.accepted == a.accepted
    ensures Consistent(b)
  {
  }

  // ------------------------------------------------------------ one link's whole life

  /** Addresses match exactly when they have the same characters up to the case of A to Z. */
  lemma SameAddressIff(a: string, b: string)
    ensures SameAddress(a, b) <==>
      && |a| == |b|
      && forall i :: 0 <= i < |a| ==>
        || a[i] == b[i]
        || ('A' <= a[i] <= 'Z' && a[i] as int + 32 == b[i] as int)
        || ('A' <= b[i] <= 'Z' && b[i] as int + 32 == a[i] as int)
  {
    if SameAddress(a, b) {
      assert |Lower(a)| == |Lower(b)|;
      forall i | 0 <= i < |a| ensures LowerChar(a[i]) == LowerChar(b[i]) {
        assert Lower(a)[i] == Lower(b)[i];
      }
    }
  }

  /**
   Issuing adds one token, for the user's address of that moment and until ttl later, and its
   unverified row; of the other rows exactly the user's unverified ones go.
   */
  lemma IssueDoes(a: Accounts, user: int, secret: string)
    requires user in a.emails
    ensures var b := IssueToken(a, user, secret);
      && b.issued == a.issued + [Token(user, a.emails[user], secret, a.now + a.ttl)]
      && b.accepted == a.accepted && b.emails == a.emails && b.now == a.now && b.ttl == a.ttl
      && Row(user, a.emails[user], Sha256(secret), a.now + a.ttl, None) in b.rows
      && forall r :: r != Row(user, a.emails[user], Sha256(secret), a.now + a.ttl, None) ==>
        (r in b.rows <==> r in a.rows && (r.user != user || r.verified.Some?))
  {
    assert IssueToken(a, user, secret).rows[|IssueToken(a, user, secret).rows| - 1].tokenHash == Sha256(secret);
  }

  /**
   A fresh link answers ok exactly within ttl of its issue; then the address it was sent to
   counts as verified, and the same link is invalid at any later time.
   */
  lemma LinkLife(a: Accounts, user: int, secret: string, wait: nat, later: nat)
    requires Consistent(a) && user in a.emails && IsFresh(a, secret)
    ensures var b := Next(IssueToken(a, user, secret), Advance(wait));
      var c := VerifyToken(b, secret).0;
      && VerifyToken(b, secret).1 == (if wait <= a.ttl then OK else EXPIRED)
      && (wait <= a.ttl ==> IsEmailVerified(c, user) && VerifyToken(Next(c, Advance(later)), secret).1 == INVALID)
  {
    var issued := IssueToken(a, user, secret);
    var b := Next(issued, Advance(wait));
    var t := issued.issued[|a.issued|];
    IssueKeeps(a, user, secret);
    SameTables(issued, b);
    LatestAfterIssue(a.issued, t, user);
    NotUsed(issued, AsRow(t, None));
    assert Outstanding(b, user, secret);
    AnswerFromHistory(b, secret);
    if wait <= a.ttl {
      UsedLinkIsOver(b, user, secret, later);
    }
  }

  lemma UsedLinkIsOver(b: Accounts, user: int, secret: string, later: nat)
    requires Consistent(b) && user in b.emails && VerifyToken(b, secret).1 == OK
    requires Latest(b.issued, user).Some? && Latest(b.issued, user).value.secret == secret
    requires Latest(b.issued, user).value.email == b.emails[user]
    ensures var c := VerifyToken(b, secret).0;
      IsEmailVerified(c, user) && VerifyToken(Next(c, Advance(later)), secret).1 == INVALID
  {
    var c := VerifyToken(b, secret).0;
    var n := Find(b.rows, Sha256(secret)).value;
    var t := Latest(b.issued, user).value;
    assert Backed(b, b.rows[n]);
    SameSecretSameToken(b.issued, AsToken(b.rows[n]), t);
    assert c.rows[n] == AsRow(t, Some(b.now));
    VerifyKeeps(b, secret);
    var again := Find(c.rows, Sha256(secret));
    SameHashSameRow(c.rows, c.rows[n], c.rows[again.value]);
  }

  // ---------------------------------------------------------------- the promises

  /**
   Over every run of issues, verifications, address changes and time: a secret is answered
   exactly as the history says; no secret is accepted twice; a user has at most one
   unverified row; and is_email_verified holds exactly when some accepted link was the
   user's, for an address equal, ignoring case, to the current one.
   */
  lemma VerificationHistory(start: Accounts, events: seq<Event>)
    requires Start(start) && FreshSecrets(start, events)
    ensures var a := Run(start, events);
      && (forall secret :: IsAnswer(a, secret, VerifyToken(a, secret).1))
      && AcceptedOnce(a.accepted)
      && (forall user :: OneUnverified(a.rows, user))
      && (forall user :: user in a.emails ==>
            (IsEmailVerified(a, user) <==> exists k :: AcceptedFor(a, k, user)))
  {
    var a := Run(start, events);
    RunsAreConsistent(start, events);
    forall secret ensures IsAnswer(a, secret, VerifyToken(a, secret).1) {
      AnswerFromHistory(a, secret);
    }
    forall user ensures OneUnverified(a.rows, user) {
      forall i, j | 0 <= i < |a.rows| && 0 <= j < |a.rows| && Outdated(a.rows[i], user) && Outdated(a.rows[j], user)
        ensures i == j
      {
        assert Backed(a, a.rows[i]) && Backed(a, a.rows[j]);
        assert a.rows[i].tokenHash == a.rows[j].tokenHash;
      }
    }
    forall user | user in a.emails ensures IsEmailVerified(a, user) <==> exists k :: AcceptedFor(a, k, user) {
      VerifiedIffAccepted(a, user);
    }
  }

  ghost predicate OneUnverified(rows: seq<Row>, user: int) {
    forall i, j :: 0 <= i < |rows| && 0 <= j < |rows| && Outdated(rows[i], user) && Outdated(rows[j], user) ==> i == j
  }

  /** The k-th acceptance was of this user's link, for the address the user has now. */
  ghost predicate AcceptedFor(a: Accounts, k: int, user: int)
    requires user in a.emails
  {
    0 <= k < |a.accepted| && a.accepted[k].token.user == user && SameAddress(a.accepted[k].token.email, a.emails[user])
  }

  lemma VerifiedIffAccepted(a: Accounts, user: int)
    requires Consistent(a) && user in a.emails
    ensures IsEmailVerified(a, user) <==> exists k :: AcceptedFor(a, k, user)
  {
    if IsEmailVerified(a, user) {
      var i :| 0 <= i < |a.rows| && a.rows[i].user == user && a.rows[i].verified.Some?
            && SameAddress(a.rows[i].email, a.emails[user]);
      assert Backed(a, a.rows[i]);
      var k :| 0 <= k < |a.accepted| && a.accepted[k] == Success(AsToken(a.rows[i]), a.rows[i].verified.value);
      assert AcceptedFor(a, k, user);
    }
    if k :| AcceptedFor(a, k, user) {
      var i :| 0 <= i < |a.rows| && a.rows[i] == AsRow(a.accepted[k].token, Some(a.accepted[k].at));
      assert a.rows[i].verified.Some?;
    }
  }

  /** Every acceptance of the history happened at a verification of the user's latest link, in time. */
  lemma {:induction false} AcceptedWhenLatest(start: Accounts, events: seq<Event>, k: nat) returns (n: nat)
    requires Start(start) && FreshSecrets(start, events) && k < |Run(start, events).accepted|
    ensures n < |events|
    ensures var s, at := Run(start, events).accepted[k], Run(start, events[..n]);
      && events[n] == Verify(s.token.secret) && Latest(at.issued, s.token.user) == Some(s.token)
      && Outstanding(at, s.token.user, s.token.secret) && s.at == at.now <= s.token.expires
  {
    var rest, e := events[..|events| - 1], events[|events| - 1];
    var before := Run(start, rest);
    if k < |before.accepted| {
      n := AcceptedWhenLatest(start, rest, k);
      assert rest[..n] == events[..n];
    } else {
      n := |rest|;
      RunsAreConsistent(start, rest);
      var r := before.rows[Find(before.rows, Sha256(e.secret)).value];
      assert Backed(before, r);
      NotUsed(before, r);
    }
  }

  // -------------------------------------------------------------- the code on tables

  class EmailVerification {
    var emails: map<int, string>
    var rows: seq<Row>
    var now: int
    const ttl: int
    ghost var issued: seq<Token>
    ghost var accepted: seq<Success>

    constructor (emails: map<int, string>, now: int, ttl: int)
      ensures Start(Tables()) && this.emails == emails && this.now == now && this.ttl == ttl
    {
      this.emails, rows, this.now, this.ttl, issued, accepted := emails, [], now, ttl, [], [];
    }

    ghost function Tables(): Accounts
      reads this
    {
      Accounts(emails, rows, now, ttl, issued, accepted)
    }

    method Issue(user: int, secret: string) returns (sent: string)
      requires user in emails && Consistent(Tables()) && IsFresh(Tables(), secret)
      modifies this`rows, this`issued
      ensures Tables() == IssueToken(old(Tables()), user, secret) && Consistent(Tables())
      ensures sent == secret && Outstanding(Tables(), user, sent)
    {
      IssueKeeps(Tables(), user, secret);
      rows := Keep(rows, r => !Outdated(r, user));
      var row := Row(user, emails[user], Sha256(secret), now + ttl, None);
      rows := rows + [row];
      issued := issued + [AsToken(row)];
      LatestAfterIssue(old(issued), AsToken(row), user);
      NotUsed(Tables(), row);
      return secret;
    }

    method Verify(secret: string) returns (answer: Answer)
      requires Consistent(Tables())
      modifies this`rows, this`accepted
      ensures (Tables(), answer) == VerifyToken(old(Tables()), secret) && Consistent(Tables())
      ensures IsAnswer(old(Tables()), secret, answer)
    {
      VerifyKeeps(Tables(), secret);
      AnswerFromHistory(Tables(), secret);
      var found := Find(rows, Sha256(secret));
      if found.None? {
        return INVALID;
      }
      var token := rows[found.value];
      if token.verified.Some? {
        return INVALID;
      }
      if now > token.expires {
        return EXPIRED;
      }
      rows := rows[found.value := token.(verified := Some(now))];
      accepted := accepted + [Success(AsToken(token), now)];
      return OK;
    }

    method IsVerified(user: int) returns (yes: bool)
      requires user in emails && Consistent(Tables())
      ensures yes <==> exists k :: AcceptedFor(Tables(), k, user)
    {
      VerifiedIffAccepted(Tables(), user);
      yes := exists i | 0 <= i < |rows| ::
        rows[i].user == user && rows[i].verified.Some? && SameAddress(rows[i].email, emails[user]);
    }
  }
}
