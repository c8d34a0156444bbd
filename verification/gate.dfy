/**
 * The `auth(requiredRoles)` middleware: a bearer header, a token that the
 * signer verifies to a user id, a user with that id, and a role check.
 */
module Gate {
  import opened Wrappers
  import opened Models
  import opened Db
  import opened Strings

  /** The token checker: the user id a valid token was signed for, or None when verification fails. */
  type Verifier = string -> Option<UserId>

  const BearerPrefix: string := "Bearer "
  const MissingToken: string := "Missing authorization token"
  const UserNotFound: string := "User not found"
  const Forbidden: string := "Forbidden"
  const InvalidToken: string := "Invalid token"

  /** `header.split(" ")[1]`, for a header known to contain a space. */
  function BearerToken(header: string): (token: string)
    requires StartsWith(header, BearerPrefix)
    ensures ' ' !in token
    ensures StartsWith(header[|BearerPrefix|..], token)
    ensures |header| > |BearerPrefix| + |token| ==> header[|BearerPrefix| + |token|] == ' '
  {
    assert header == "Bearer" + [' '] + header[|BearerPrefix|..];
    SplitAfterPrefix("Bearer", header[|BearerPrefix|..], ' ');
    var rest := header[|BearerPrefix|..];
    FirstPiece(rest);
    Split(header, ' ')[1]
  }

  /** The first piece of `split(" ")` is the text up to the first space. */
  lemma FirstPiece(rest: string)
    ensures var piece := Split(rest, ' ')[0];
            StartsWith(rest, piece) && (|rest| > |piece| ==> rest[|piece|] == ' ')
  {
    match Find(rest, ' ')
    case None =>
    case Some(i) =>
      assert Split(rest, ' ')[0] == rest[..i];
  }

  /** The role check: an empty list admits every role. */
  predicate RoleAdmitted(role: Role, requiredRoles: seq<Role>) {
    |requiredRoles| == 0 || role in requiredRoles
  }

  /**
   * The middleware's decision for a request carrying `header` (None when
   * absent): the resolved user on success, else the HTTP error it sends.
   */
  function Authorize(users: seq<User>, header: Option<string>, verify: Verifier, requiredRoles: seq<Role>)
    : (r: Result<User, HttpError>)
    ensures header.None? || !StartsWith(header.value, BearerPrefix) ==>
              r == Err(HttpError(401, Message(MissingToken)))
    ensures header.Some? && StartsWith(header.value, BearerPrefix) && verify(BearerToken(header.value)).None? ==>
              r == Err(HttpError(401, Message(InvalidToken)))
    ensures header.Some? && StartsWith(header.value, BearerPrefix) && verify(BearerToken(header.value)).Some?
              && FindUser(users, verify(BearerToken(header.value)).value).None? ==>
              r == Err(HttpError(401, Message(UserNotFound)))
    ensures header.Some? && StartsWith(header.value, BearerPrefix) && verify(BearerToken(header.value)).Some?
              && FindUser(users, verify(BearerToken(header.value)).value).Some?
              && !RoleAdmitted(users[FindUser(users, verify(BearerToken(header.value)).value).value].role, requiredRoles) ==>
              r == Err(HttpError(403, Message(Forbidden)))
    ensures r.Ok? <==>
              && header.Some? && StartsWith(header.value, BearerPrefix)
              && verify(BearerToken(header.value)).Some?
              && FindUser(users, verify(BearerToken(header.value)).value).Some?
              && RoleAdmitted(users[FindUser(users, verify(BearerToken(header.value)).value).value].role, requiredRoles)
    ensures r.Ok? ==> r.value in users && r.value.id == verify(BearerToken(header.value)).value
    ensures r.Err? && r.error.code == 403 ==> r.error.body == Message(Forbidden)
    ensures r.Err? ==> r.error.code in {401, 403}
  {
    if header.None? || !StartsWith(header.value, BearerPrefix) then Err(HttpError(401, Message(MissingToken)))
    else match verify(BearerToken(header.value))
      case None => Err(HttpError(401, Message(InvalidToken)))
      case Some(uid) =>
        match FindUser(users, uid)
        case None => Err(HttpError(401, Message(UserNotFound)))
        case Some(ui) =>
          if !RoleAdmitted(users[ui].role, requiredRoles) then Err(HttpError(403, Message(Forbidden)))
          else Ok(users[ui])
  }
}
