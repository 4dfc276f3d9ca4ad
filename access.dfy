/** The two guards the routes are wrapped in: `verifyUser` (a bearer token that
    the identity service accepts) and `verifyOrganizer` (the verified email
    belongs to a stored user whose role is exactly "organizer"), and the role
    that GET /users/role reports. */
module Access {
  import opened Records

  /** The identity service: the email a token verifies to, or None when verification throws. */
  type Verifier = string -> Option<string>

  /** What a guard decides: go on with the verified email, or answer with a status. */
  datatype Gate = Pass(email: string) | Deny(status: Status)

  /** JavaScript's `s.split(sep)` for a one-character separator: the pieces
      between separators, left to right, an empty piece wherever two separators
      meet or one starts or ends the string. */
  function Split(s: string, sep: char): (parts: seq<string>)
    ensures |parts| >= 1
    ensures (|parts| == 1) == (sep !in s)
    ensures forall i :: 0 <= i < |parts| ==> sep !in parts[i]
  {
    if s == [] then [""]
    else
      assert s == [s[0]] + s[1..];
      var rest := Split(s[1..], sep);
      if s[0] == sep then [""] + rest
      else [[s[0]] + rest[0]] + rest[1..]
  }

  /** JavaScript's `parts.join(sep)`. */
  function Join(parts: seq<string>, sep: char): string
    requires |parts| >= 1
  {
    if |parts| == 1 then parts[0] else parts[0] + [sep] + Join(parts[1..], sep)
  }

  /** Putting a character in front of the first part puts it in front of the joined string. */
  lemma JoinPrepend(c: char, parts: seq<string>, sep: char)
    requires |parts| >= 1
    ensures Join([[c] + parts[0]] + parts[1..], sep) == [c] + Join(parts, sep)
  {
    var parts' := [[c] + parts[0]] + parts[1..];
    assert parts'[1..] == parts[1..];
  }

  /** Splitting loses nothing: joining the parts gives back the string. */
  lemma {:induction false} JoinSplit(s: string, sep: char)
    ensures Join(Split(s, sep), sep) == s
  {
    if s != [] {
      var rest := Split(s[1..], sep);
      JoinSplit(s[1..], sep);
      if s[0] == sep {
        assert ([""] + rest)[1..] == rest;
      } else {
        JoinPrepend(s[0], rest, sep);
      }
      assert s == [s[0]] + s[1..];
    }
  }

  /** A piece free of the separator, then the separator, splits off as the first part. */
  lemma {:induction false} SplitAfter(head: string, sep: char, rest: string)
    requires sep !in head
    ensures Split(head + [sep] + rest, sep) == [head] + Split(rest, sep)
  {
    var s := head + [sep] + rest;
    if head == [] {
      assert s[1..] == rest;
    } else {
      assert s[1..] == head[1..] + [sep] + rest;
      SplitAfter(head[1..], sep, rest);
      assert [head[0]] + head[1..] == head;
    }
  }

  /** A string free of the separator splits into itself alone. */
  lemma {:induction false} SplitWhole(s: string, sep: char)
    requires sep !in s
    ensures Split(s, sep) == [s]
  {
    if s != [] {
      SplitWhole(s[1..], sep);
      assert [s[0]] + s[1..] == s;
    }
  }

  /** Joining separator-free parts and splitting again gives back the parts. */
  lemma {:induction false} SplitJoin(parts: seq<string>, sep: char)
    requires |parts| >= 1
    requires forall i :: 0 <= i < |parts| ==> sep !in parts[i]
    ensures Split(Join(parts, sep), sep) == parts
    decreases |parts|
  {
    if |parts| == 1 {
      SplitWhole(parts[0], sep);
    } else {
      SplitJoin(parts[1..], sep);
      SplitAfter(parts[0], sep, Join(parts[1..], sep));
      assert parts == [parts[0]] + parts[1..];
    }
  }

  /** `authHeader.split(" ")[1]`: the word after the first space, or None (undefined) when there is no space. */
  function BearerToken(header: string): (t: Option<string>)
    ensures t.Some? <==> ' ' in header
    ensures t.Some? ==> ' ' !in t.value
  {
    var parts := Split(header, ' ');
    if |parts| >= 2 then Some(parts[1]) else None
  }

  /** The token is the second space-separated word of the header, whatever follows it. */
  lemma BearerTokenIsSecondWord(scheme: string, token: string, rest: string)
    requires ' ' !in scheme && ' ' !in token
    ensures BearerToken(scheme + " " + token) == Some(token)
    ensures BearerToken(scheme + " " + token + " " + rest) == Some(token)
  {
    SplitAfter(scheme, ' ', token);
    SplitWhole(token, ' ');
    assert scheme + " " + token == scheme + [' '] + token;
    SplitAfter(scheme, ' ', token + " " + rest);
    SplitAfter(token, ' ', rest);
    assert scheme + " " + token + " " + rest == scheme + [' '] + (token + [' '] + rest);
  }

  /** `verifyUser`: 401 without a header or without a token after its first space,
      403 when the identity service rejects the token, else the verified email. */
  function Authenticate(header: Option<string>, verify: Verifier): (g: Gate)
    ensures g.Deny? ==> g.status == Unauthorized || g.status == Forbidden
    ensures g == Deny(Unauthorized) <==> !Truthy(header) || !Truthy(BearerToken(header.value))
    ensures g.Pass? ==> verify(BearerToken(header.value).value) == Some(g.email)
    ensures Truthy(header) && Truthy(BearerToken(header.value)) ==>
      g == (match verify(BearerToken(header.value).value) case None => Deny(Forbidden) case Some(e) => Pass(e))
  {
    if !Truthy(header) then Deny(Unauthorized)
    else
      var token := BearerToken(header.value);
      if !Truthy(token) then Deny(Unauthorized)
      else
        match verify(token.value)
        case None => Deny(Forbidden)
        case Some(email) => Pass(email)
  }

  /** A well-formed `Authorization: <scheme> <token>` header is decided by the identity service alone. */
  lemma BearerHeader(scheme: string, token: string, verify: Verifier)
    requires ' ' !in scheme && ' ' !in token && token != ""
    ensures Authenticate(Some(scheme + " " + token), verify)
         == (match verify(token) case None => Deny(Forbidden) case Some(e) => Pass(e))
  {
    SplitJoin([scheme, token], ' ');
    assert Join([scheme, token], ' ') == scheme + " " + token by {
      assert Join([scheme, token][1..], ' ') == token;
    }
  }

  /** Headers that carry no token are refused with 401 whatever the identity service says:
      no space at all, nothing after the first space, or a second space straight after it. */
  lemma UnauthorizedHeaders(scheme: string, rest: string, verify: Verifier)
    requires ' ' !in scheme
    ensures Authenticate(Some(scheme), verify) == Deny(Unauthorized)
    ensures Authenticate(Some(scheme + " "), verify) == Deny(Unauthorized)
    ensures Authenticate(Some(scheme + "  " + rest), verify) == Deny(Unauthorized)
  {
    SplitAfter(scheme, ' ', "");
    assert scheme + " " == scheme + [' '] + "";
    SplitAfter(scheme, ' ', " " + rest);
    assert scheme + "  " + rest == scheme + [' '] + (" " + rest);
    SplitAfter("", ' ', rest);
    assert " " + rest == "" + [' '] + rest;
  }

  /** The organizer test of `verifyOrganizer`. */
  predicate IsOrganizer(users: map<string, User>, email: string) {
    email in users && users[email].role == Some("organizer")
  }

  /** `verifyOrganizer`, run after `verifyUser`: a verified request goes on only
      when its email belongs to a stored organizer, otherwise 403. */
  function RequireOrganizer(users: map<string, User>, g: Gate): (r: Gate)
    ensures r.Pass? <==> g.Pass? && IsOrganizer(users, g.email)
    ensures r.Pass? ==> r == g
    ensures g.Deny? ==> r == g
    ensures g.Pass? && !IsOrganizer(users, g.email) ==> r == Deny(Forbidden)
  {
    if g.Deny? then g
    else if IsOrganizer(users, g.email) then g
    else Deny(Forbidden)
  }

  /** The role GET /users/role reports: the stored role, or "participant" when it is unset or empty. */
  function RoleOf(u: User): (role: string)
    ensures role != ""
  {
    if Truthy(u.role) then u.role.value else "participant"
  }

  /** The organizer guard and the role route agree: a user passes the guard
      exactly when the role route reports "organizer" for them. */
  lemma OrganizerIffRole(users: map<string, User>, email: string)
    ensures IsOrganizer(users, email) <==> email in users && RoleOf(users[email]) == "organizer"
  {
    assert "participant"[0] != "organizer"[0];
  }
}
