/** Sign-in gate and token callbacks of apps/portal/src/lib/auth.ts. The
    allowlist comes from the `ALLOWED_EMAILS` variable, passed in as text;
    lower-casing is ASCII-only. */
module Auth {
  import opened Wrappers
  import opened Strings

  /** `ALLOWED_EMAILS.split(',').map(trim+lower).filter(Boolean)`. */
  function ParseAllowlist(raw: string): (entries: seq<string>)
    ensures forall k | 0 <= k < |entries| :: entries[k] != "" && ',' !in entries[k]
    ensures forall k | 0 <= k < |entries| :: Lower(entries[k]) == entries[k]
    ensures forall e | e in entries :: exists p | p in Split(raw, ',') :: e == Lower(Trim(p))
    ensures forall p | p in Split(raw, ',') && Lower(Trim(p)) != "" :: Lower(Trim(p)) in entries
  {
    AllowlistEntries(Split(raw, ','));
    NonEmpty(Normalize(Split(raw, ',')))
  }

  /** The facts `ParseAllowlist` states, for any comma-free pieces. */
  lemma AllowlistEntries(pieces: seq<string>)
    requires forall k | 0 <= k < |pieces| :: ',' !in pieces[k]
    ensures var entries := NonEmpty(Normalize(pieces));
            && (forall k | 0 <= k < |entries| :: entries[k] != "" && ',' !in entries[k])
            && (forall k | 0 <= k < |entries| :: Lower(entries[k]) == entries[k])
            && (forall e | e in entries :: exists p | p in pieces :: e == Lower(Trim(p)))
            && (forall p | p in pieces && Lower(Trim(p)) != "" :: Lower(Trim(p)) in entries)
  {
    var normalized := Normalize(pieces);
    var entries := NonEmpty(normalized);
    NormalizedMembers(pieces);
    NormalizedContents(pieces);
    forall k | 0 <= k < |entries|
      ensures ',' !in entries[k] && Lower(entries[k]) == entries[k]
    {
      assert entries[k] in normalized;
    }
  }

  /** Every normalized piece is comma-free and already lower-case. */
  lemma NormalizedMembers(pieces: seq<string>)
    requires forall k | 0 <= k < |pieces| :: ',' !in pieces[k]
    ensures forall x | x in Normalize(pieces) :: ',' !in x && Lower(x) == x
  {
    var r := Normalize(pieces);
    NormalizedPieces(pieces);
    forall x | x in r
      ensures ',' !in x && Lower(x) == x
    {
      var k :| 0 <= k < |r| && r[k] == x;
    }
  }

  /** The normalized pieces are exactly the trimmed, lower-cased pieces. */
  lemma NormalizedContents(pieces: seq<string>)
    ensures forall x | x in Normalize(pieces) :: exists p | p in pieces :: x == Lower(Trim(p))
    ensures forall p | p in pieces :: Lower(Trim(p)) in Normalize(pieces)
  {
    var r := Normalize(pieces);
    forall x | x in r
      ensures exists p | p in pieces :: x == Lower(Trim(p))
    {
      var k :| 0 <= k < |r| && r[k] == x;
      assert pieces[k] in pieces;
    }
    forall p | p in pieces
      ensures Lower(Trim(p)) in r
    {
      var k :| 0 <= k < |pieces| && pieces[k] == p;
      assert r[k] == Lower(Trim(p));
    }
  }

  /** Trim and lower-case every piece. */
  function Normalize(pieces: seq<string>): (r: seq<string>)
    ensures |r| == |pieces|
    ensures forall k | 0 <= k < |r| :: r[k] == Lower(Trim(pieces[k]))
  {
    if |pieces| == 0 then []
    else
      var rest := Normalize(pieces[1..]);
      var r := [Lower(Trim(pieces[0]))] + rest;
      assert forall k | 0 <= k < |r| :: r[k] == Lower(Trim(pieces[k])) by {
        forall k | 0 < k < |r|
          ensures r[k] == Lower(Trim(pieces[k]))
        {
          assert r[k] == rest[k - 1];
          assert pieces[1..][k - 1] == pieces[k];
        }
      }
      r
  }

  /** Normalized comma-free pieces stay comma-free and are lower-case. */
  lemma NormalizedPieces(pieces: seq<string>)
    requires forall k | 0 <= k < |pieces| :: ',' !in pieces[k]
    ensures forall k | 0 <= k < |pieces| :: ',' !in Normalize(pieces)[k] && Lower(Normalize(pieces)[k]) == Normalize(pieces)[k]
  {
    var r := Normalize(pieces);
    forall k | 0 <= k < |pieces|
      ensures ',' !in r[k] && Lower(r[k]) == r[k]
    {
      NormalizedPiece(pieces[k]);
    }
  }

  /** A trimmed, lower-cased piece gains no comma and is already lower-case. */
  lemma NormalizedPiece(p: string)
    requires ',' !in p
    ensures ',' !in Lower(Trim(p))
    ensures Lower(Lower(Trim(p))) == Lower(Trim(p))
  {
    var t := Trim(p);
    TrimIsInfix(p);
    var l := Lower(t);
    forall i | 0 <= i < |l|
      ensures l[i] != ','
    {
      assert t[i] in p;
    }
  }

  /** `Trim` keeps a contiguous part of its input. */
  lemma TrimIsInfix(p: string)
    ensures forall i | 0 <= i < |Trim(p)| :: Trim(p)[i] in p
  {
    var s := TrimStart(p);
    var t := TrimEnd(s);
    forall i | 0 <= i < |t|
      ensures t[i] in p
    {
      assert t[i] == s[i];
      assert s[i] == p[|p| - |s| + i];
    }
  }

  datatype User = User(id: string, email: Option<string>)

  /** `signIn`: an empty allowlist admits everyone; otherwise the user's
      lower-cased email must be an entry. A missing or empty email is
      refused. */
  function SignIn(allowlist: seq<string>, user: User): (admitted: bool)
    ensures |allowlist| == 0 ==> admitted
    ensures |allowlist| > 0 ==>
              (admitted <==> user.email.Some? && user.email.value != "" && Lower(user.email.value) in allowlist)
  {
    if |allowlist| == 0 then true
    else match user.email
      case Some(e) => Lower(e) != "" && Lower(e) in allowlist
      case None => false
  }

  /** The admission test ignores the case of ASCII letters in the email. */
  lemma SignInIgnoresCase(raw: string, id: string, a: string, b: string)
    requires Lower(a) == Lower(b)
    ensures SignIn(ParseAllowlist(raw), User(id, Some(a))) == SignIn(ParseAllowlist(raw), User(id, Some(b)))
  {
  }

  /** A one-address allowlist, written in any case and padded with spaces,
      admits exactly the emails equal to it up to ASCII case. */
  lemma SingleEntryAdmits(raw: string, user: User)
    requires ',' !in raw && Trim(raw) != ""
    ensures SignIn(ParseAllowlist(raw), user) <==>
              user.email.Some? && Lower(user.email.value) == Lower(Trim(raw))
  {
    SplitWithoutSeparator(raw, ',');
    assert Normalize([raw]) == [Lower(Trim(raw))];
    assert Lower(Trim(raw)) != "" by {
      assert |Lower(Trim(raw))| == |Trim(raw)|;
    }
    assert NonEmpty([Lower(Trim(raw))]) == [Lower(Trim(raw))];
  }

  datatype SessionUser = SessionUser(id: Option<string>, email: Option<string>, name: Option<string>)
  datatype Session = Session(user: Option<SessionUser>)
  datatype Token = Token(sub: Option<string>, id: Option<string>)

  /** `session`: the user's id becomes `token.sub` when there is a session
      user and a non-empty subject; otherwise the session is unchanged. */
  function SessionCallback(session: Session, token: Token): (r: Session)
    ensures (session.user.None? || token.sub.None? || token.sub.value == "") ==> r == session
    ensures session.user.Some? && token.sub.Some? && token.sub.value != "" ==>
              r.user.Some? && r.user.value == session.user.value.(id := token.sub)
  {
    match (session.user, token.sub)
    case (Some(u), Some(sub)) => if sub != "" then Session(Some(u.(id := Some(sub)))) else session
    case _ => session
  }

  /** `jwt`: on sign-in the user's id is copied into the token; otherwise the
      token is unchanged. */
  function JwtCallback(token: Token, user: Option<User>): (r: Token)
    ensures user.None? ==> r == token
    ensures user.Some? ==> r.id == Some(user.value.id) && r.sub == token.sub
  {
    match user
    case Some(u) => token.(id := Some(u.id))
    case None => token
  }

  /** How the two callbacks meet over a token's life: the id stored at
      sign-in survives every later request, where no user is passed; a
      session built from the token carries the token's subject as the
      user's id, not the id stored at sign-in; and rebuilding the session
      from the same token changes nothing more. */
  lemma {:induction false} TokenCarriesIdentity(token: Token, user: User, later: nat, session: Session)
    requires session.user.Some? && token.sub.Some? && token.sub.value != ""
    ensures var t := JwtCallback(token, Some(user));
            && Refreshed(t, later) == t
            && Refreshed(t, later).id == Some(user.id)
            && SessionCallback(session, Refreshed(t, later)).user.value.id == token.sub
            && SessionCallback(SessionCallback(session, t), t) == SessionCallback(session, t)
  {
    RefreshKeeps(JwtCallback(token, Some(user)), later);
  }

  /** The token after `n` later requests, each running the jwt callback
      without a user. */
  function Refreshed(token: Token, n: nat): Token {
    if n == 0 then token else Refreshed(JwtCallback(token, None), n - 1)
  }

  lemma {:induction false} RefreshKeeps(token: Token, n: nat)
    ensures Refreshed(token, n) == token
  {
    if n > 0 {
      RefreshKeeps(JwtCallback(token, None), n - 1);
    }
  }
}
