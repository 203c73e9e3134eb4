/**
 * The password-reset and logout views as transitions over the users table,
 * the OTP table, the stored passwords and the access tokens. Request
 * validation by the serializers has already succeeded; password hashing is
 * left to `set_password` and the stored value is the new password itself.
 */
module Auth {
  import opened Wrappers
  import opened Domain
  import opened Mail

  /** The status code and message of a `success(...)` or `error(...)` response. */
  datatype Reply = Reply(success: bool, status: int, message: string)

  /** An `AccessToken` row. */
  datatype AccessToken = AccessToken(token: string, userId: Id)

  /** The `set_password` results and the `AccessToken` table. */
  class Accounts {
    var passwords: map<Id, string>
    var tokens: seq<AccessToken>

    constructor (passwords: map<Id, string>, tokens: seq<AccessToken>)
      ensures this.passwords == passwords && this.tokens == tokens
    {
      this.passwords := passwords;
      this.tokens := tokens;
    }
  }

  /** `AccessToken.objects.filter(user=user).delete()` */
  function DropTokens(tokens: seq<AccessToken>, userId: Id): (r: seq<AccessToken>)
    ensures forall t :: t in r <==> t in tokens && t.userId != userId
    decreases |tokens|
  {
    if tokens == [] then []
    else DropTokens(tokens[..|tokens| - 1], userId)
         + (if tokens[|tokens| - 1].userId == userId then [] else [tokens[|tokens| - 1]])
  }

  /** `User.objects.filter(email=email).first()` */
  function UserByEmail(users: seq<User>, email: string): (r: Option<User>)
    ensures r.Some? ==> r.value in users && r.value.email == email
    ensures r.None? ==> forall i :: 0 <= i < |users| ==> users[i].email != email
  {
    if users == [] then None
    else if users[0].email == email then Some(users[0])
    else UserByEmail(users[1..], email)
  }

  /**
   * `PasswordResetRequestView.post`: an unknown email is a 400 and nothing
   * is dispatched; a known one enqueues exactly one OTP email task.
   */
  method PasswordResetRequest(users: seq<User>, queue: TaskQueue, email: string) returns (reply: Reply)
    modifies queue
    ensures UserByEmail(users, email).None? ==>
      reply == Reply(false, 400, "User with the provided email does not exist") && queue.tasks == old(queue.tasks)
    ensures UserByEmail(users, email).Some? ==>
      && reply == Reply(true, 200, "An OTP has been sent to your email for verification")
      && queue.tasks == old(queue.tasks) + [SendEmailOtp(UserByEmail(users, email).value.id)]
  {
    var user := UserByEmail(users, email);
    if user.None? {
      return Reply(false, 400, "User with the provided email does not exist");
    }
    queue.Delay(SendEmailOtp(user.value.id));
    return Reply(true, 200, "An OTP has been sent to your email for verification");
  }

  /** `OtpCode.objects.filter(otp_code=otp, content_type=user_content_type)` as a row test. */
  function ForAnyUser(code: string): OtpCode -> bool {
    (o: OtpCode) => o.owner.kind == UserKind && o.code == code
  }

  /**
   * `PasswordResetConfirmationView.post`:
   * an unknown code changes nothing; an expired one is deleted; a code
   * whose owner no longer exists is kept; otherwise the password is set,
   * the code deleted and every token of that user revoked.
   */
  method PasswordResetConfirmation(users: seq<User>, otps: OtpTable, accounts: Accounts, code: string, password: string,
                                   now: int) returns (reply: Reply)
    requires otps.Valid()
    modifies otps, accounts
    ensures otps.Valid()
    ensures var found := FirstOtp(old(otps.codes), ForAnyUser(code));
      match found
      case None =>
        && reply == Reply(false, 400, "Invalid OTP")
        && otps.codes == old(otps.codes) && accounts.passwords == old(accounts.passwords)
        && accounts.tokens == old(accounts.tokens)
      case Some(otp) =>
        if HasExpired(otp, now) then
          && reply == Reply(false, 400, "OTP has expired. Make a new request")
          && otps.codes == DeleteOtp(old(otps.codes), otp.id)
          && accounts.passwords == old(accounts.passwords) && accounts.tokens == old(accounts.tokens)
        else match FindBy(users, UserId, otp.owner.objectId)
          case None =>
            && reply == Reply(false, 400, "Invalid OTP")
            && otps.codes == old(otps.codes) && accounts.passwords == old(accounts.passwords)
            && accounts.tokens == old(accounts.tokens)
          case Some(user) =>
            && reply == Reply(true, 200, "Password reset successfully")
            && accounts.passwords == old(accounts.passwords)[user.id := password]
            && otps.codes == DeleteOtp(old(otps.codes), otp.id)
            && accounts.tokens == DropTokens(old(accounts.tokens), user.id)
  {
    var found := FirstOtp(otps.codes, ForAnyUser(code));
    if found.None? {
      return Reply(false, 400, "Invalid OTP");
    }
    var otp := found.value;
    if HasExpired(otp, now) {
      otps.Delete(otp.id);
      return Reply(false, 400, "OTP has expired. Make a new request");
    }
    var owner := FindBy(users, UserId, otp.owner.objectId);
    if owner.None? {
      return Reply(false, 400, "Invalid OTP");
    }
    var user := owner.value;
    accounts.passwords := accounts.passwords[user.id := password];
    otps.Delete(otp.id);
    accounts.tokens := DropTokens(accounts.tokens, user.id);
    return Reply(true, 200, "Password reset successfully");
  }

  /** `LogoutView.post`: the requesting user's tokens go, everyone else's stay. */
  method Logout(accounts: Accounts, user: User) returns (reply: Reply)
    modifies accounts
    ensures reply == Reply(true, 205, "Logout successfully")
    ensures accounts.tokens == DropTokens(old(accounts.tokens), user.id)
    ensures accounts.passwords == old(accounts.passwords)
  {
    accounts.tokens := DropTokens(accounts.tokens, user.id);
    return Reply(true, 205, "Logout successfully");
  }

  /** Revoking from a table with one more row at the end. */
  lemma DropTokensSnoc(tokens: seq<AccessToken>, t: AccessToken, userId: Id)
    ensures DropTokens(tokens + [t], userId) == DropTokens(tokens, userId) + (if t.userId == userId then [] else [t])
  {
    assert (tokens + [t])[..|tokens|] == tokens;
  }

  /** Revoking one user's tokens keeps every other user's, in order. */
  lemma {:induction false} DropTokensKeepsOthers(tokens: seq<AccessToken>, userId: Id, other: Id)
    requires other != userId
    ensures DropTokens(DropTokens(tokens, userId), other) == DropTokens(DropTokens(tokens, other), userId)
    ensures forall t :: t in tokens && t.userId == other ==> t in DropTokens(tokens, userId)
    decreases |tokens|
  {
    if tokens != [] {
      var init, last := tokens[..|tokens| - 1], tokens[|tokens| - 1];
      assert tokens == init + [last];
      DropTokensKeepsOthers(init, userId, other);
      var du, dother := DropTokens(init, userId), DropTokens(init, other);
      DropTokensSnoc(init, last, userId);
      DropTokensSnoc(init, last, other);
      if last.userId == userId {
        assert DropTokens(tokens, userId) == du;
        DropTokensSnoc(dother, last, userId);
      } else if last.userId == other {
        assert DropTokens(tokens, other) == dother;
        DropTokensSnoc(du, last, other);
      } else {
        DropTokensSnoc(du, last, other);
        DropTokensSnoc(dother, last, userId);
      }
    }
  }

  /**
   * A reset cannot be replayed: once the code's row is deleted, sending the
   * same code again finds no row (the view answers "Invalid OTP" and changes
   * nothing), provided no other row holds that code; and revoking the
   * user's tokens a second time finds nothing left to delete.
   */
  lemma {:induction false} ResetRevokesEverything(tokens: seq<AccessToken>, codes: seq<OtpCode>, code: string, userId: Id)
    requires FirstOtp(codes, ForAnyUser(code)).Some?
    requires forall i, j :: 0 <= i < j < |codes| && ForAnyUser(code)(codes[i]) ==> !ForAnyUser(code)(codes[j])
    ensures FirstOtp(DeleteOtp(codes, FirstOtp(codes, ForAnyUser(code)).value.id), ForAnyUser(code)).None?
    ensures DropTokens(DropTokens(tokens, userId), userId) == DropTokens(tokens, userId)
  {
    var matches := ForAnyUser(code);
    var k := FirstIndex(codes, matches);
    var rest := DeleteOtp(codes, codes[k].id);
    forall o | o in rest ensures !matches(o) {
      var j :| 0 <= j < |codes| && codes[j] == o;
      if matches(o) {
        if j < k {
          assert false;
        } else if j > k {
          assert false;
        }
      }
    }
    DropTokensTwice(tokens, userId);
  }

  /** Revoking a user's tokens twice is revoking them once. */
  lemma {:induction false} DropTokensTwice(tokens: seq<AccessToken>, userId: Id)
    ensures DropTokens(DropTokens(tokens, userId), userId) == DropTokens(tokens, userId)
    decreases |tokens|
  {
    if tokens != [] {
      var init, last := tokens[..|tokens| - 1], tokens[|tokens| - 1];
      assert tokens == init + [last];
      var d := DropTokens(init, userId);
      DropTokensSnoc(init, last, userId);
      DropTokensTwice(init, userId);
      if last.userId == userId {
        assert DropTokens(tokens, userId) == d;
      } else {
        assert DropTokens(tokens, userId) == d + [last];
        DropTokensSnoc(d, last, userId);
      }
    }
  }
}
