/**
 * Refresh-token rotation (section 10.4 of RFC 6749). A token is what its signed payload says; the stored hash
 * is taken to be injective, so the table is keyed by the token itself.
 */
module Tokens {
  import opened Wrappers

  /** `serial` is the random `jti`; `expiry` the `exp` claim (section 4.1.4 of RFC 7519). */
  datatype Token = Token(userId: Uuid, serial: nat, expiry: int)

  /** What a client sends: a token this service signed, or anything whose signature or type does not check. */
  datatype Presented = Genuine(token: Token) | Forged

  datatype Record = Record(userId: Uuid, issuedAt: int, expiresAt: int, usedAt: Option<int>, rotationCount: nat)

  datatype Error = UserNotFound | WrongPassword | InvalidRefreshToken | RefreshTokenAlreadyUsed | TokenCollision

  type Table = map<Token, Record>

  datatype Place = Place(chain: nat, position: nat)

  /**
   * The committed table with the history it grew from: the user of each login, the chain of tokens that each
   * login heads, where in the chains each token stands, and the tokens accepted for refreshing, in order.
   */
  datatype State = State(
    tokens: Table, logins: seq<Uuid>, chains: seq<seq<Token>>, place: map<Token, Place>, accepted: seq<Token>)

  const INITIAL := State(map[], [], [], map[], [])

  /** The clock is read when a token is decoded, by the service, and when the new token is signed. */
  datatype Op =
    | Login(user: Option<Uuid>, passwordCorrect: bool, serial: nat, now: int, signedAt: int, ttl: int)
    | Refresh(
        presented: Presented, userKnown: bool, serial: nat, decodedAt: int, now: int, signedAt: int, ttl: int)

  function Minted(userId: Uuid, op: Op): Token {
    Token(userId, op.serial, op.signedAt + op.ttl)
  }

  function NewRecord(userId: Uuid, op: Op): Record {
    Record(userId, op.now, op.now + op.ttl, None, 0)
  }

  /** The exception that ends the operation before its commit, if any. */
  function Guard(tokens: Table, op: Op): Option<Error> {
    match op
    case Login(user, correct, _, _, _, _) =>
      if user.None? then Some(UserNotFound)
      else if !correct then Some(WrongPassword)
      else if Minted(user.value, op) in tokens then Some(TokenCollision)
      else None
    case Refresh(presented, known, _, decodedAt, now, _, _) =>
      if presented.Forged? || presented.token.expiry < decodedAt then Some(InvalidRefreshToken)
      else if presented.token !in tokens then Some(InvalidRefreshToken)
      else if now >= tokens[presented.token].expiresAt then Some(InvalidRefreshToken)
      else if tokens[presented.token].usedAt.Some? then Some(RefreshTokenAlreadyUsed)
      else if !known then Some(InvalidRefreshToken)
      else if Minted(presented.token.userId, op) in tokens then Some(InvalidRefreshToken)
      else None
  }

  function Marked(tokens: Table, t: Token, now: int): Table
    requires t in tokens
  {
    tokens[t := tokens[t].(usedAt := Some(now), rotationCount := tokens[t].rotationCount + 1)]
  }

  /** The history behind a token: it belongs to a chain of the state. */
  predicate Placed(s: State, t: Token) {
    t in s.tokens && t in s.place && s.place[t].chain < |s.chains|
  }

  predicate AllPlaced(s: State) {
    forall t :: t in s.tokens ==> Placed(s, t)
  }

  function AfterLogin(s: State, userId: Uuid, op: Op): State {
    var t := Minted(userId, op);
    State(s.tokens[t := NewRecord(userId, op)], s.logins + [userId], s.chains + [[t]],
          s.place[t := Place(|s.chains|, 0)], s.accepted)
  }

  function AfterRefresh(s: State, t: Token, op: Op): State
    requires Placed(s, t)
  {
    var t' := Minted(t.userId, op);
    var i := s.place[t].chain;
    State(Marked(s.tokens, t, op.now)[t' := NewRecord(t.userId, op)], s.logins,
          s.chains[i := s.chains[i] + [t']], s.place[t' := Place(i, |s.chains[i]|)], s.accepted + [t])
  }

  function Apply(s: State, op: Op): State {
    if Guard(s.tokens, op).Some? then s
    else if op.Login? then AfterLogin(s, op.user.value, op)
    else if Placed(s, op.presented.token) then AfterRefresh(s, op.presented.token, op)
    else s
  }

  function Run(s: State, ops: seq<Op>): State
    decreases |ops|
  {
    if ops == [] then s else Run(Apply(s, ops[0]), ops[1..])
  }

  // ----- the law

  /** A row agrees with its token, and has been rotated once exactly when it has been used. */
  ghost predicate RecordsLaw(s: State) {
    forall t :: t in s.tokens ==>
      && s.tokens[t].userId == t.userId
      && s.tokens[t].rotationCount == (if s.tokens[t].usedAt.Some? then 1 else 0)
  }

  /** The chains list every token exactly once. */
  ghost predicate PlacesLaw(s: State) {
    && (forall t :: t in s.tokens ==>
          && Placed(s, t) && s.place[t].position < |s.chains[s.place[t].chain]|
          && s.chains[s.place[t].chain][s.place[t].position] == t)
    && (forall i, j :: 0 <= i < |s.chains| && 0 <= j < |s.chains[i]| ==>
          s.chains[i][j] in s.tokens && s.place[s.chains[i][j]] == Place(i, j))
  }

  /** Each login heads a chain of its user's tokens, of which all but the last have been used. */
  ghost predicate ChainsLaw(s: State) {
    && |s.chains| == |s.logins|
    && (forall i :: 0 <= i < |s.chains| ==> s.chains[i] != [])
    && (forall i, j :: 0 <= i < |s.chains| && 0 <= j < |s.chains[i]| ==>
          s.chains[i][j] in s.tokens && s.chains[i][j].userId == s.logins[i]
          && (s.tokens[s.chains[i][j]].usedAt.Some? <==> j < |s.chains[i]| - 1))
  }

  /** A token has been used exactly when it was accepted, and none was accepted twice. */
  ghost predicate AcceptedLaw(s: State) {
    && (forall t :: t in s.accepted <==> t in s.tokens && s.tokens[t].usedAt.Some?)
    && (forall i, j :: 0 <= i < j < |s.accepted| ==> s.accepted[i] != s.accepted[j])
  }

  ghost predicate TokenLaw(s: State) {
    RecordsLaw(s) && PlacesLaw(s) && ChainsLaw(s) && AcceptedLaw(s)
  }

  lemma LoginKeepsPlaces(s: State, userId: Uuid, op: Op)
    requires PlacesLaw(s) && Minted(userId, op) !in s.tokens
    ensures PlacesLaw(AfterLogin(s, userId, op))
  {
  }

  lemma LoginKeepsChains(s: State, userId: Uuid, op: Op)
    requires ChainsLaw(s) && Minted(userId, op) !in s.tokens
    ensures ChainsLaw(AfterLogin(s, userId, op))
  {
  }

  lemma LoginKeepsAccepted(s: State, userId: Uuid, op: Op)
    requires AcceptedLaw(s) && Minted(userId, op) !in s.tokens
    ensures AcceptedLaw(AfterLogin(s, userId, op))
  {
  }

  lemma LoginKeepsLaw(s: State, userId: Uuid, op: Op)
    requires TokenLaw(s) && Minted(userId, op) !in s.tokens
    ensures TokenLaw(AfterLogin(s, userId, op))
  {
    LoginKeepsPlaces(s, userId, op);
    LoginKeepsChains(s, userId, op);
    LoginKeepsAccepted(s, userId, op);
  }

  lemma RefreshKeepsRecords(s: State, t: Token, op: Op)
    requires RecordsLaw(s) && Placed(s, t) && s.tokens[t].usedAt.None? && Minted(t.userId, op) !in s.tokens
    ensures RecordsLaw(AfterRefresh(s, t, op))
  {
  }

  lemma RefreshKeepsPlaces(s: State, t: Token, op: Op)
    requires PlacesLaw(s) && Placed(s, t) && Minted(t.userId, op) !in s.tokens
    ensures PlacesLaw(AfterRefresh(s, t, op))
  {
  }

  lemma RefreshKeepsChains(s: State, t: Token, op: Op)
    requires PlacesLaw(s) && ChainsLaw(s) && Placed(s, t) && s.tokens[t].usedAt.None?
    requires Minted(t.userId, op) !in s.tokens
    ensures ChainsLaw(AfterRefresh(s, t, op))
  {
    var s' := AfterRefresh(s, t, op);
    var c := s.place[t].chain;
    assert s.place[t].position == |s.chains[c]| - 1;
    forall i, j | 0 <= i < |s'.chains| && 0 <= j < |s'.chains[i]|
      ensures s'.chains[i][j] in s'.tokens && s'.chains[i][j].userId == s'.logins[i]
      ensures s'.tokens[s'.chains[i][j]].usedAt.Some? <==> j < |s'.chains[i]| - 1
    {
      if i != c || j < |s.chains[i]| {
        assert s'.chains[i][j] == s.chains[i][j];
        assert s.place[s.chains[i][j]] == Place(i, j);
      }
    }
  }

  lemma RefreshKeepsAccepted(s: State, t: Token, op: Op)
    requires AcceptedLaw(s) && Placed(s, t) && s.tokens[t].usedAt.None? && Minted(t.userId, op) !in s.tokens
    ensures AcceptedLaw(AfterRefresh(s, t, op))
  {
    assert t !in s.accepted;
  }

  lemma ApplyKeepsLaw(s: State, op: Op)
    requires TokenLaw(s)
    ensures TokenLaw(Apply(s, op)) && AllPlaced(s)
  {
    if Guard(s.tokens, op).None? {
      if op.Login? {
        LoginKeepsLaw(s, op.user.value, op);
      } else {
        RefreshKeepsRecords(s, op.presented.token, op);
        RefreshKeepsPlaces(s, op.presented.token, op);
        RefreshKeepsChains(s, op.presented.token, op);
        RefreshKeepsAccepted(s, op.presented.token, op);
      }
    }
  }

  // ----- counting

  ghost function Unused(tokens: Table, u: Uuid): set<Token> {
    set t | t in tokens && t.userId == u && tokens[t].usedAt.None?
  }

  ghost function Used(tokens: Table, u: Uuid): set<Token> {
    set t | t in tokens && t.userId == u && tokens[t].usedAt.Some?
  }

  function LoginsOf(logins: seq<Uuid>, u: Uuid): nat {
    if logins == [] then 0
    else LoginsOf(logins[..|logins| - 1], u) + if logins[|logins| - 1] == u then 1 else 0
  }

  function RefreshesOf(accepted: seq<Token>, u: Uuid): nat {
    if accepted == [] then 0
    else RefreshesOf(accepted[..|accepted| - 1], u) + if accepted[|accepted| - 1].userId == u then 1 else 0
  }

  /** Each user has one unused token per login, and one used token per successful refresh. */
  ghost predicate CountsLaw(s: State) {
    forall u ::
      |Unused(s.tokens, u)| == LoginsOf(s.logins, u) && |Used(s.tokens, u)| == RefreshesOf(s.accepted, u)
  }

  /** A login adds one unused token of its user. */
  lemma LoginSets(tokens: Table, t: Token, minted: Record, u: Uuid)
    requires t !in tokens && minted.usedAt.None?
    ensures Unused(tokens[t := minted], u) == Unused(tokens, u) + if u == t.userId then {t} else {}
    ensures Used(tokens[t := minted], u) == Used(tokens, u)
    ensures t !in Unused(tokens, u)
  {
  }

  lemma LoginCounts(tokens: Table, t: Token, minted: Record, u: Uuid)
    requires t !in tokens && minted.usedAt.None?
    ensures |Unused(tokens[t := minted], u)| == |Unused(tokens, u)| + if u == t.userId then 1 else 0
    ensures |Used(tokens[t := minted], u)| == |Used(tokens, u)|
  {
    LoginSets(tokens, t, minted, u);
  }

  lemma OneMoreLogin(logins: seq<Uuid>, userId: Uuid, u: Uuid)
    ensures LoginsOf(logins + [userId], u) == LoginsOf(logins, u) + if u == userId then 1 else 0
  {
    assert (logins + [userId])[..|logins|] == logins;
  }

  lemma LoginKeepsCounts(s: State, userId: Uuid, op: Op)
    requires CountsLaw(s) && Minted(userId, op) !in s.tokens
    ensures CountsLaw(AfterLogin(s, userId, op))
  {
    forall u
      ensures |Unused(AfterLogin(s, userId, op).tokens, u)| == LoginsOf(AfterLogin(s, userId, op).logins, u)
      ensures |Used(AfterLogin(s, userId, op).tokens, u)| == RefreshesOf(s.accepted, u)
    {
      LoginCounts(s.tokens, Minted(userId, op), NewRecord(userId, op), u);
      OneMoreLogin(s.logins, userId, u);
    }
  }

  lemma Exchanged(ts: set<Token>, t: Token, t': Token)
    requires t in ts && t' !in ts
    ensures |ts - {t} + {t'}| == |ts|
  {
    assert |ts - {t}| == |ts| - 1;
  }

  lemma RotationSets(tokens: Table, t: Token, t': Token, minted: Record, now: int, u: Uuid)
    requires t in tokens && tokens[t].usedAt.None? && t' !in tokens && t'.userId == t.userId && minted.usedAt.None?
    ensures Unused(Marked(tokens, t, now)[t' := minted], u)
         == if u == t.userId then Unused(tokens, u) - {t} + {t'} else Unused(tokens, u)
    ensures Used(Marked(tokens, t, now)[t' := minted], u)
         == if u == t.userId then Used(tokens, u) + {t} else Used(tokens, u)
    ensures t !in Used(tokens, u) && t' !in Unused(tokens, u) && (u == t.userId ==> t in Unused(tokens, u))
  {
  }

  /** Rotation replaces one unused token of the user by another, and adds one used token. */
  lemma RotationCounts(tokens: Table, t: Token, t': Token, minted: Record, now: int, u: Uuid)
    requires t in tokens && tokens[t].usedAt.None? && t' !in tokens && t'.userId == t.userId && minted.usedAt.None?
    ensures |Unused(Marked(tokens, t, now)[t' := minted], u)| == |Unused(tokens, u)|
    ensures |Used(Marked(tokens, t, now)[t' := minted], u)| == |Used(tokens, u)| + if u == t.userId then 1 else 0
  {
    RotationSets(tokens, t, t', minted, now, u);
    if u == t.userId {
      Exchanged(Unused(tokens, u), t, t');
    }
  }

  lemma RefreshKeepsCounts(s: State, t: Token, op: Op)
    requires CountsLaw(s) && Placed(s, t) && s.tokens[t].usedAt.None? && Minted(t.userId, op) !in s.tokens
    ensures CountsLaw(AfterRefresh(s, t, op))
  {
    var s' := AfterRefresh(s, t, op);
    forall u
      ensures |Unused(s'.tokens, u)| == LoginsOf(s'.logins, u) && |Used(s'.tokens, u)| == RefreshesOf(s'.accepted, u)
    {
      RotationCounts(s.tokens, t, Minted(t.userId, op), NewRecord(t.userId, op), op.now, u);
      assert s'.accepted[..|s.accepted|] == s.accepted;
    }
  }

  /** After every sequence of logins and refreshes, whatever tokens are presented. */
  lemma {:induction false} RunKeepsLaws(s: State, ops: seq<Op>)
    requires TokenLaw(s) && CountsLaw(s)
    ensures TokenLaw(Run(s, ops)) && CountsLaw(Run(s, ops))
    decreases |ops|
  {
    if ops == [] {
    } else {
      ApplyKeepsLaw(s, ops[0]);
      if Guard(s.tokens, ops[0]).None? {
        if ops[0].Login? {
          LoginKeepsCounts(s, ops[0].user.value, ops[0]);
        } else {
          RefreshKeepsCounts(s, ops[0].presented.token, ops[0]);
        }
      }
      RunKeepsLaws(Apply(s, ops[0]), ops[1..]);
    }
  }

  lemma InitialLaws()
    ensures TokenLaw(INITIAL) && CountsLaw(INITIAL)
  {
    forall u
      ensures |Unused(INITIAL.tokens, u)| == 0 && |Used(INITIAL.tokens, u)| == 0
    {
      assert Unused(INITIAL.tokens, u) == {} && Used(INITIAL.tokens, u) == {};
    }
  }

  /** From the empty table on, whatever tokens are presented. */
  lemma EveryRunKeepsLaws(ops: seq<Op>)
    ensures TokenLaw(Run(INITIAL, ops)) && CountsLaw(Run(INITIAL, ops))
  {
    InitialLaws();
    RunKeepsLaws(INITIAL, ops);
  }

  /** Records are never deleted and keep their expiry. */
  lemma ApplyKeepsExpiry(s: State, op: Op, t: Token)
    requires t in s.tokens
    ensures t in Apply(s, op).tokens && Apply(s, op).tokens[t].expiresAt == s.tokens[t].expiresAt
  {
  }

  lemma {:induction false} AcceptedStays(s: State, ops: seq<Op>, t: Token)
    requires t in s.accepted && t in s.tokens
    ensures t in Run(s, ops).accepted
    ensures t in Run(s, ops).tokens && Run(s, ops).tokens[t].expiresAt == s.tokens[t].expiresAt
    decreases |ops|
  {
    if ops == [] {
    } else {
      ApplyKeepsExpiry(s, ops[0], t);
      AcceptedStays(Apply(s, ops[0]), ops[1..], t);
    }
  }

  /** Once accepted, a token is refused for ever: with RefreshTokenAlreadyUsed while its time has not run out. */
  lemma AcceptedIsRefused(s: State, ops: seq<Op>, op: Op)
    requires TokenLaw(s) && CountsLaw(s)
    requires op.Refresh? && op.presented.Genuine? && op.presented.token in s.accepted
    ensures var s', t := Run(s, ops), op.presented.token;
            && t in s.tokens && t in s'.accepted && Apply(s', op) == s'
            && Guard(s'.tokens, op)
               == Some(if op.decodedAt <= t.expiry && op.now < s.tokens[t].expiresAt then RefreshTokenAlreadyUsed
                       else InvalidRefreshToken)
  {
    RunKeepsLaws(s, ops);
    AcceptedStays(s, ops, op.presented.token);
  }

  /** Of all the tokens of a login's chain exactly the last can still be exchanged, and only before it expires. */
  lemma OnlyLastOfChainIsExchangeable(s: State, i: nat, j: nat, op: Op)
    requires TokenLaw(s) && i < |s.chains| && j < |s.chains[i]|
    requires op.Refresh? && op.presented == Genuine(s.chains[i][j])
    ensures var t, minted := s.chains[i][j], Token(s.logins[i], op.serial, op.signedAt + op.ttl);
            && t in s.tokens
            && (Guard(s.tokens, op).None?
                <==> && j == |s.chains[i]| - 1 && op.decodedAt <= t.expiry && op.now < s.tokens[t].expiresAt
                     && op.userKnown && minted !in s.tokens)
            && (Guard(s.tokens, op).None? ==> Apply(s, op).chains[i] == s.chains[i] + [minted])
  {
    assert s.place[s.chains[i][j]] == Place(i, j);
  }

  // ----- refusals and effects

  /** The token that a successful operation for the user hands out, and the record behind it. */
  ghost predicate HandsOut(tokens: Table, tokens': Table, userId: Uuid, op: Op) {
    var t := Token(userId, op.serial, op.signedAt + op.ttl);
    && t !in tokens && t in tokens'
    && tokens'[t] == Record(userId, op.now, op.now + op.ttl, None, 0)
  }

  /** A login stores one token if the user exists, the password is right and the token is new, and else nothing. */
  lemma LoginStores(s: State, op: Op)
    requires op.Login?
    ensures var r := Guard(s.tokens, op);
            var known, right := op.user.Some?, op.passwordCorrect;
            var new' := known && Token(op.user.value, op.serial, op.signedAt + op.ttl) !in s.tokens;
            && (r == None <==> known && right && new')
            && (r == Some(UserNotFound) <==> !known)
            && (r == Some(WrongPassword) <==> known && !right)
            && (r == Some(TokenCollision) <==> known && right && !new')
            && (r == None ==>
                  && HandsOut(s.tokens, Apply(s, op).tokens, op.user.value, op)
                  && Apply(s, op).tokens.Keys == s.tokens.Keys + {Token(op.user.value, op.serial, op.signedAt + op.ttl)}
                  && (forall t :: t in s.tokens ==> Apply(s, op).tokens[t] == s.tokens[t])
                  && Apply(s, op).logins == s.logins + [op.user.value] && Apply(s, op).accepted == s.accepted)
            && (r != None ==> Apply(s, op) == s)
  {
  }

  /** The presented token is one that the service signed and stored, and neither of its expiries has passed. */
  predicate Admitted(tokens: Table, op: Op)
    requires op.Refresh?
  {
    && op.presented.Genuine? && op.presented.token in tokens
    && op.decodedAt <= op.presented.token.expiry && op.now < tokens[op.presented.token].expiresAt
  }

  /**
   * A refresh marks the presented token and stores one more if the token is admitted and unused, its user exists
   * and the new token is new. A used one is refused as such while it would otherwise be admitted; everything else
   * is refused as invalid; and a refusal changes nothing.
   */
  lemma RefreshStores(s: State, op: Op)
    requires TokenLaw(s) && op.Refresh?
    ensures var r, t := Guard(s.tokens, op), op.presented;
            var unused := Admitted(s.tokens, op) && s.tokens[t.token].usedAt == None;
            var new' := t.Genuine? && Token(t.token.userId, op.serial, op.signedAt + op.ttl) !in s.tokens;
            && (r == None <==> unused && op.userKnown && new')
            && (r == Some(RefreshTokenAlreadyUsed) <==> Admitted(s.tokens, op) && !unused)
            && (r == Some(InvalidRefreshToken) <==> !Admitted(s.tokens, op) || (unused && !(op.userKnown && new')))
            && (r == None ==>
                  && HandsOut(s.tokens, Apply(s, op).tokens, t.token.userId, op)
                  && Apply(s, op).tokens.Keys
                     == s.tokens.Keys + {Token(t.token.userId, op.serial, op.signedAt + op.ttl)}
                  && Apply(s, op).tokens[t.token] == s.tokens[t.token].(usedAt := Some(op.now), rotationCount := 1)
                  && (forall u :: u in s.tokens && u != t.token ==> Apply(s, op).tokens[u] == s.tokens[u])
                  && Apply(s, op).logins == s.logins && Apply(s, op).accepted == s.accepted + [t.token])
            && (r != None ==> Apply(s, op) == s)
  {
  }

  /** A login that names the user with the right password and hands out a new token. */
  predicate IsCorrectLogin(tokens: Table, op: Op, u: Uuid) {
    op.Login? && op.user == Some(u) && op.passwordCorrect && Token(u, op.serial, op.signedAt + op.ttl) !in tokens
  }

  /** A refresh that presents an admitted, unused token of the user, who exists, and hands out a new token. */
  predicate IsCorrectRefresh(tokens: Table, op: Op, u: Uuid) {
    && op.Refresh? && Admitted(tokens, op) && tokens[op.presented.token].usedAt == None
    && op.presented.token.userId == u && op.userKnown && Token(u, op.serial, op.signedAt + op.ttl) !in tokens
  }

  function CorrectLogins(s: State, ops: seq<Op>, u: Uuid): nat
    decreases |ops|
  {
    if ops == [] then 0
    else (if IsCorrectLogin(s.tokens, ops[0], u) then 1 else 0) + CorrectLogins(Apply(s, ops[0]), ops[1..], u)
  }

  function CorrectRefreshes(s: State, ops: seq<Op>, u: Uuid): nat
    decreases |ops|
  {
    if ops == [] then 0
    else (if IsCorrectRefresh(s.tokens, ops[0], u) then 1 else 0) + CorrectRefreshes(Apply(s, ops[0]), ops[1..], u)
  }

  lemma OneMoreRefresh(accepted: seq<Token>, t: Token, u: Uuid)
    ensures RefreshesOf(accepted + [t], u) == RefreshesOf(accepted, u) + if u == t.userId then 1 else 0
  {
    assert (accepted + [t])[..|accepted|] == accepted;
  }

  lemma StepCountsCorrect(s: State, op: Op, u: Uuid)
    requires TokenLaw(s)
    ensures LoginsOf(Apply(s, op).logins, u)
         == LoginsOf(s.logins, u) + if IsCorrectLogin(s.tokens, op, u) then 1 else 0
    ensures RefreshesOf(Apply(s, op).accepted, u)
         == RefreshesOf(s.accepted, u) + if IsCorrectRefresh(s.tokens, op, u) then 1 else 0
  {
    if op.Login? {
      LoginStores(s, op);
      if op.user.Some? {
        OneMoreLogin(s.logins, op.user.value, u);
      }
    } else {
      RefreshStores(s, op);
      if op.presented.Genuine? {
        OneMoreRefresh(s.accepted, op.presented.token, u);
      }
    }
  }

  /** Over any run the logins and acceptances on record are exactly the correct ones; nothing else got in. */
  lemma {:induction false} RunCountsCorrect(s: State, ops: seq<Op>, u: Uuid)
    requires TokenLaw(s)
    ensures LoginsOf(Run(s, ops).logins, u) == LoginsOf(s.logins, u) + CorrectLogins(s, ops, u)
    ensures RefreshesOf(Run(s, ops).accepted, u) == RefreshesOf(s.accepted, u) + CorrectRefreshes(s, ops, u)
    decreases |ops|
  {
    if ops == [] {
    } else {
      StepCountsCorrect(s, ops[0], u);
      ApplyKeepsLaw(s, ops[0]);
      RunCountsCorrect(Apply(s, ops[0]), ops[1..], u);
    }
  }

  /** From the empty table each user has one unused token per correct login, and one used per correct refresh. */
  lemma TokensAreEarned(ops: seq<Op>, u: Uuid)
    ensures |Unused(Run(INITIAL, ops).tokens, u)| == CorrectLogins(INITIAL, ops, u)
    ensures |Used(Run(INITIAL, ops).tokens, u)| == CorrectRefreshes(INITIAL, ops, u)
  {
    EveryRunKeepsLaws(ops);
    InitialLaws();
    RunCountsCorrect(INITIAL, ops, u);
  }

  // ----- the two expiries

  /** The clock does not run backwards within an operation. */
  predicate ClockAdvances(op: Op) {
    op.now <= op.signedAt && (op.Refresh? ==> op.decodedAt <= op.now)
  }

  /** A record expires no later than its token. */
  ghost predicate ExpiryLaw(s: State) {
    forall t :: t in s.tokens ==> s.tokens[t].expiresAt <= t.expiry
  }

  lemma {:induction false} RunKeepsExpiryLaw(s: State, ops: seq<Op>)
    requires ExpiryLaw(s) && forall op :: op in ops ==> ClockAdvances(op)
    ensures ExpiryLaw(Run(s, ops))
    decreases |ops|
  {
    if ops == [] {
    } else {
      assert ops[0] in ops;
      RunKeepsExpiryLaw(Apply(s, ops[0]), ops[1..]);
    }
  }

  /** From the empty table on the stored expiry decides: a token that it still admits is never refused as expired. */
  lemma StoredExpiryDecides(ops: seq<Op>, op: Op)
    requires ClockAdvances(op) && forall o :: o in ops ==> ClockAdvances(o)
    requires op.Refresh? && op.presented.Genuine? && op.presented.token in Run(INITIAL, ops).tokens
    requires op.now < Run(INITIAL, ops).tokens[op.presented.token].expiresAt
    ensures op.decodedAt < op.presented.token.expiry
    ensures var r := Run(INITIAL, ops).tokens[op.presented.token];
            r.usedAt.Some? ==> Guard(Run(INITIAL, ops).tokens, op) == Some(RefreshTokenAlreadyUsed)
  {
    RunKeepsExpiryLaw(INITIAL, ops);
  }

  // ----- the service

  class AuthService {
    var committed: Table
    ghost var logins: seq<Uuid>
    ghost var chains: seq<seq<Token>>
    ghost var place: map<Token, Place>
    ghost var accepted: seq<Token>

    constructor ()
      ensures Current() == INITIAL
    {
      committed := map[];
      logins, chains, place, accepted := [], [], map[], [];
    }

    ghost function Current(): State
      reads this
    {
      State(committed, logins, chains, place, accepted)
    }

    /** Flushes a new record to the working copy; the unique hash refuses a token that is already stored. */
    static method CreateRefreshTokenRecord(working: Table, userId: Uuid, op: Op)
      returns (r: Result<(Token, Table), Error>)
      ensures r.Err? <==> Minted(userId, op) in working
      ensures r.Err? ==> r.error == TokenCollision
      ensures r.Ok? ==> r.value == (Minted(userId, op), working[Minted(userId, op) := NewRecord(userId, op)])
    {
      var token := Token(userId, op.serial, op.signedAt + op.ttl);
      if token in working {
        return Err(TokenCollision);
      }
      return Ok((token, working[token := Record(userId, op.now, op.now + op.ttl, None, 0)]));
    }

    method LogIn(op: Op) returns (r: Result<Token, Error>)
      requires op.Login?
      modifies this
      ensures Current() == Apply(old(Current()), op)
      ensures match r
              case Ok(t) =>
                && Guard(old(committed), op).None? && op.user.Some? && op.passwordCorrect
                && t == Token(op.user.value, op.serial, op.signedAt + op.ttl)
              case Err(e) => Guard(old(committed), op) == Some(e)
    {
      if op.user.None? {
        return Err(UserNotFound);
      }
      if !op.passwordCorrect {
        return Err(WrongPassword);
      }
      var created :- CreateRefreshTokenRecord(committed, op.user.value, op);
      var token, working := created.0, created.1;
      committed := working;
      logins, place := logins + [op.user.value], place[token := Place(|chains|, 0)];
      chains := chains + [[token]];
      return Ok(token);
    }

    /** The mark is flushed before the user is looked up; when that fails the commit is never reached. */
    method Exchange(op: Op) returns (r: Result<Token, Error>)
      requires op.Refresh? && AllPlaced(Current())
      modifies this
      ensures Current() == Apply(old(Current()), op)
      ensures r.Err? ==> Current() == old(Current())
      ensures match r
              case Ok(t) =>
                && Guard(old(committed), op).None? && Admitted(old(committed), op) && op.userKnown
                && t == Token(op.presented.token.userId, op.serial, op.signedAt + op.ttl)
              case Err(e) => Guard(old(committed), op) == Some(e)
    {
      if op.presented.Forged? || op.presented.token.expiry < op.decodedAt {
        return Err(InvalidRefreshToken);
      }
      var token := op.presented.token;
      var working := committed;
      if token !in working {
        return Err(InvalidRefreshToken);
      }
      var stored := working[token];
      if op.now >= stored.expiresAt {
        return Err(InvalidRefreshToken);
      }
      if stored.usedAt.Some? {
        return Err(RefreshTokenAlreadyUsed);
      }
      working := working[token := stored.(usedAt := Some(op.now), rotationCount := stored.rotationCount + 1)];
      if !op.userKnown {
        return Err(InvalidRefreshToken);
      }
      var created := CreateRefreshTokenRecord(working, token.userId, op);
      if created.Err? {
        return Err(InvalidRefreshToken);
      }
      committed := created.value.1;
      ghost var i := place[token].chain;
      place := place[created.value.0 := Place(i, |chains[i]|)];
      chains := chains[i := chains[i] + [created.value.0]];
      accepted := accepted + [token];
      return Ok(created.value.0);
    }
  }
}
